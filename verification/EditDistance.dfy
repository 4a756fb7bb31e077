/** The character error count. */
module EditDistance {
  import opened Prelude

  // The character error count: rolling rows compute the least number of single-character edits between two texts.

  function Min(a: nat, b: nat): nat { if a < b then a else b }

  function Init(s: string): string
    requires s != ""
  {
    s[..|s| - 1]
  }

  function Last(s: string): char
    requires s != ""
  {
    s[|s| - 1]
  }

  function Differ(x: char, y: char): nat { if x == y then 0 else 1 }

  /** The recursive definition, on last characters. */
  function Distance(a: string, b: string): nat
    decreases |a| + |b|
  {
    if a == "" then |b|
    else if b == "" then |a|
    else
      Min(Min(Distance(a, Init(b)) + 1, Distance(Init(a), b) + 1), Distance(Init(a), Init(b)) + Differ(Last(a), Last(b)))
  }

  // ----- it is a metric -----

  lemma {:induction false} DistanceBounds(a: string, b: string)
    ensures |a| - |b| <= Distance(a, b) && |b| - |a| <= Distance(a, b)
    ensures Distance(a, b) <= if |a| < |b| then |b| else |a|
    decreases |a| + |b|
  {
    if a != "" && b != "" {
      DistanceBounds(a, Init(b));
      DistanceBounds(Init(a), b);
      DistanceBounds(Init(a), Init(b));
    }
  }

  lemma {:induction false} Symmetric(a: string, b: string)
    ensures Distance(a, b) == Distance(b, a)
    decreases |a| + |b|
  {
    if a != "" && b != "" {
      Symmetric(a, Init(b));
      Symmetric(Init(a), b);
      Symmetric(Init(a), Init(b));
    }
  }

  lemma {:induction false} ZeroExactlyWhenEqual(a: string, b: string)
    ensures Distance(a, b) == 0 <==> a == b
    decreases |a| + |b|
  {
    if a != "" && b != "" {
      ZeroExactlyWhenEqual(Init(a), Init(b));
      assert a == Init(a) + [Last(a)] && b == Init(b) + [Last(b)];
    }
  }

  lemma {:induction false} Triangle(a: string, b: string, c: string)
    ensures Distance(a, c) <= Distance(a, b) + Distance(b, c)
    decreases |a| + |b| + |c|
  {
    if a == "" || b == "" || c == "" {
      DistanceBounds(a, b);
      DistanceBounds(b, c);
      DistanceBounds(a, c);
    } else if Distance(a, b) == Distance(Init(a), b) + 1 {
      Triangle(Init(a), b, c);
    } else if Distance(b, c) == Distance(b, Init(c)) + 1 {
      Triangle(a, b, Init(c));
    } else if Distance(a, b) == Distance(a, Init(b)) + 1 {
      if Distance(b, c) == Distance(Init(b), c) + 1 { Triangle(a, Init(b), c); } else { Triangle(a, Init(b), Init(c)); }
    } else {
      if Distance(b, c) == Distance(Init(b), c) + 1 {
        Triangle(Init(a), Init(b), c);
      } else {
        Triangle(Init(a), Init(b), Init(c));
      }
    }
  }

  // ----- it is the least number of edits -----

  predicate Inserted(x: string, y: string, i: nat) {
    i <= |x| && |y| == |x| + 1 && y == x[..i] + [y[i]] + x[i..]
  }

  predicate Replaced(x: string, y: string, i: nat) {
    i < |x| == |y| && y == x[i := y[i]]
  }

  /** One character is inserted, deleted or replaced. */
  ghost predicate OneEdit(x: string, y: string) {
    exists i :: Inserted(x, y, i) || Inserted(y, x, i) || Replaced(x, y, i)
  }

  /** A script: the texts from the first to the last, each one edit after another. */
  ghost predicate Script(p: seq<string>, a: string, b: string) {
    p != [] && p[0] == a && p[|p| - 1] == b && forall k :: 0 <= k < |p| - 1 ==> OneEdit(p[k], p[k + 1])
  }

  lemma {:induction false} CommonEnd(a: string, b: string, s: string)
    ensures Distance(a + s, b + s) <= Distance(a, b)
  {
    if s == "" {
      assert a + s == a && b + s == b;
    } else {
      CommonEnd(a, b, Init(s));
      assert Init(a + s) == a + Init(s) && Init(b + s) == b + Init(s);
    }
  }

  lemma InsertedDistance(x: string, y: string, i: nat)
    requires Inserted(x, y, i)
    ensures Distance(x, y) <= 1
  {
    var u := x[..i];
    ZeroExactlyWhenEqual(u, u);
    assert Init(u + [y[i]]) == u;
    CommonEnd(u, u + [y[i]], x[i..]);
    assert x == u + x[i..];
  }

  lemma ReplacedDistance(x: string, y: string, i: nat)
    requires Replaced(x, y, i)
    ensures Distance(x, y) <= 1
  {
    var u := x[..i];
    ZeroExactlyWhenEqual(u, u);
    assert Init(u + [x[i]]) == u && Init(u + [y[i]]) == u;
    CommonEnd(u + [x[i]], u + [y[i]], x[i + 1..]);
    assert x == u + [x[i]] + x[i + 1..] && y == u + [y[i]] + x[i + 1..];
  }

  lemma OneEditDistance(x: string, y: string)
    requires OneEdit(x, y)
    ensures Distance(x, y) <= 1
  {
    var i :| Inserted(x, y, i) || Inserted(y, x, i) || Replaced(x, y, i);
    if Inserted(x, y, i) {
      InsertedDistance(x, y, i);
    } else if Inserted(y, x, i) {
      InsertedDistance(y, x, i);
      Symmetric(x, y);
    } else {
      ReplacedDistance(x, y, i);
    }
  }

  /** No script is shorter than the distance. */
  lemma {:induction false} NoShorterScript(p: seq<string>, a: string, b: string)
    requires Script(p, a, b)
    ensures Distance(a, b) <= |p| - 1
    decreases |p|
  {
    if |p| == 1 {
      ZeroExactlyWhenEqual(a, b);
    } else {
      var q := p[..|p| - 1];
      assert OneEdit(p[|p| - 2], p[|p| - 2 + 1]);
      NoShorterScript(q, a, p[|p| - 2]);
      OneEditDistance(p[|p| - 2], b);
      Triangle(a, p[|p| - 2], b);
    }
  }

  lemma InsertedBefore(x: string, y: string, i: nat, c: char)
    requires Inserted(x, y, i)
    ensures Inserted(x + [c], y + [c], i)
  {
  }

  lemma ReplacedBefore(x: string, y: string, i: nat, c: char)
    requires Replaced(x, y, i)
    ensures Replaced(x + [c], y + [c], i)
  {
  }

  lemma EditBefore(x: string, y: string, c: char)
    requires OneEdit(x, y)
    ensures OneEdit(x + [c], y + [c])
  {
    hide Inserted, Replaced;
    var i :| Inserted(x, y, i) || Inserted(y, x, i) || Replaced(x, y, i);
    if Inserted(x, y, i) {
      InsertedBefore(x, y, i, c);
    } else if Inserted(y, x, i) {
      InsertedBefore(y, x, i, c);
    } else {
      ReplacedBefore(x, y, i, c);
    }
  }

  /** The same script with one more character at the end of every text. */
  lemma ScriptBefore(p: seq<string>, a: string, b: string, c: char) returns (q: seq<string>)
    requires Script(p, a, b)
    ensures Script(q, a + [c], b + [c]) && |q| == |p|
  {
    q := seq(|p|, k requires 0 <= k < |p| => p[k] + [c]);
    forall k | 0 <= k < |q| - 1 ensures OneEdit(q[k], q[k + 1]) { EditBefore(p[k], p[k + 1], c); }
  }

  lemma OneMoreEdit(p: seq<string>, a: string, b: string, c: string)
    requires Script(p, a, b) && OneEdit(b, c)
    ensures Script(p + [c], a, c)
  {
    forall k | 0 <= k < |p| ensures OneEdit((p + [c])[k], (p + [c])[k + 1]) {
      if k < |p| - 1 { assert OneEdit(p[k], p[k + 1]); }
    }
  }

  lemma AppendIsEdit(a: string, c: char)
    ensures OneEdit(a, a + [c]) && OneEdit(a + [c], a)
  {
    assert Inserted(a, a + [c], |a|);
  }

  lemma EditFirst(a: string, b: string, c: string, q: seq<string>)
    requires OneEdit(a, b) && Script(q, b, c)
    ensures Script([a] + q, a, c)
  {
    var p := [a] + q;
    forall k | 0 <= k < |p| - 1 ensures OneEdit(p[k], p[k + 1]) {
      if k > 0 { assert OneEdit(q[k - 1], q[k - 1 + 1]); }
    }
  }

  /** And some script is as short as that. */
  lemma {:induction false} ShortestScript(a: string, b: string) returns (p: seq<string>)
    ensures Script(p, a, b) && |p| - 1 == Distance(a, b)
    decreases |a| + |b|
  {
    hide Script, OneEdit;
    if a == "" && b == "" {
      p := NoEdit();
    } else if b != "" && Distance(a, b) == Distance(a, Init(b)) + 1 {
      var q := ShortestScript(a, Init(b));
      AppendIsEdit(Init(b), Last(b));
      assert Init(b) + [Last(b)] == b;
      OneMoreEdit(q, a, Init(b), b);
      p := q + [b];
    } else if a != "" && Distance(a, b) == Distance(Init(a), b) + 1 {
      var q := ShortestScript(Init(a), b);
      AppendIsEdit(Init(a), Last(a));
      assert Init(a) + [Last(a)] == a;
      EditFirst(a, Init(a), b, q);
      p := [a] + q;
    } else {
      p := ShortestSubstitution(a, b);
    }
  }

  lemma NoEdit() returns (p: seq<string>)
    ensures Script(p, "", "") && |p| == 1
  {
    p := [""];
  }

  lemma {:induction false} ShortestSubstitution(a: string, b: string) returns (p: seq<string>)
    requires a != "" && b != "" && Distance(a, b) == Distance(Init(a), Init(b)) + Differ(Last(a), Last(b))
    ensures Script(p, a, b) && |p| - 1 == Distance(a, b)
    decreases |a| + |b|, 0
  {
    var q := ShortestScript(Init(a), Init(b));
    p := ScriptBefore(q, Init(a), Init(b), Last(a));
    assert Init(a) + [Last(a)] == a && Init(b) + [Last(b)] == b;
    if Last(a) != Last(b) {
      assert Replaced(Init(b) + [Last(a)], b, |b| - 1);
      OneMoreEdit(p, a, Init(b) + [Last(a)], b);
      p := p + [b];
    }
  }

  // ----- the rolling rows -----

  /** The row for the first `n` expected characters: the distance to every prefix of the actual text. */
  predicate IsRow(row: seq<nat>, expected: string, n: nat, actual: string, m: nat)
    requires n <= |expected| && m <= |actual|
  {
    |row| == m + 1 && forall k :: 0 <= k <= m ==> row[k] == Distance(expected[..n], actual[..k])
  }

  datatype Score = Score(edits: nat, referenceCharacters: nat, cer: Option<real>)

  method Cer(expected: string, actual: string) returns (r: Score)
    ensures r.edits == Distance(expected, actual) && r.referenceCharacters == |expected|
    ensures r.cer.None? <==> expected == ""
    ensures r.cer.Some? ==> r.cer.value * |expected| as real == r.edits as real
  {
    hide Distance;
    var previous: seq<nat> := seq(|actual| + 1, k => k);
    FirstRow(previous, expected, actual);
    for n := 0 to |expected|
      invariant IsRow(previous, expected, n, actual, |actual|)
    {
      previous := NextRow(expected, n, actual, previous);
    }
    assert expected[..|expected|] == expected && actual[..|actual|] == actual;
    var edits := previous[|previous| - 1];
    if expected != "" { Quotient(edits as real, |expected| as real); }
    r := Score(edits, |expected|, if expected == "" then None else Some(edits as real / |expected| as real));
  }

  /** The inner loop: the row for one more expected character. */
  method NextRow(expected: string, n: nat, actual: string, previous: seq<nat>) returns (current: seq<nat>)
    requires n < |expected| && IsRow(previous, expected, n, actual, |actual|)
    ensures IsRow(current, expected, n + 1, actual, |actual|)
  {
    hide Distance;
    current := [n + 1];
    FirstCell(expected, n, actual);
    for m := 0 to |actual|
      invariant IsRow(current, expected, n + 1, actual, m)
    {
      NextCell(expected, n, actual, m);
      current := current + [Min(Min(current[m] + 1, previous[m + 1] + 1), previous[m] + Differ(expected[n], actual[m]))];
    }
  }

  lemma Quotient(x: real, y: real)
    requires y != 0.0
    ensures x / y * y == x
  {
  }

  lemma FirstRow(row: seq<nat>, expected: string, actual: string)
    requires |row| == |actual| + 1 && forall k :: 0 <= k <= |actual| ==> row[k] == k
    ensures IsRow(row, expected, 0, actual, |actual|)
  {
    forall k | 0 <= k <= |actual| ensures row[k] == Distance(expected[..0], actual[..k]) {
      assert expected[..0] == "" && |actual[..k]| == k;
    }
  }

  lemma FirstCell(expected: string, n: nat, actual: string)
    requires n < |expected|
    ensures IsRow([n + 1], expected, n + 1, actual, 0)
  {
    assert actual[..0] == "" && |expected[..n + 1]| == n + 1;
  }

  lemma NextCell(expected: string, n: nat, actual: string, m: nat)
    requires n < |expected| && m < |actual|
    ensures Distance(expected[..n + 1], actual[..m + 1])
            == Min(Min(Distance(expected[..n + 1], actual[..m]) + 1, Distance(expected[..n], actual[..m + 1]) + 1),
                   Distance(expected[..n], actual[..m]) + Differ(expected[n], actual[m]))
  {
    hide Distance;
    var a, b := expected[..n + 1], actual[..m + 1];
    assert a != "" && b != "" && Init(a) == expected[..n] && Init(b) == actual[..m];
    assert Last(a) == expected[n] && Last(b) == actual[m];
    Unfold(a, b);
  }

  lemma {:induction false} Unfold(a: string, b: string)
    requires a != "" && b != ""
    ensures Distance(a, b)
            == Min(Min(Distance(a, Init(b)) + 1, Distance(Init(a), b) + 1), Distance(Init(a), Init(b)) + Differ(Last(a), Last(b)))
  {
  }

  /** So the edit count is the length of a shortest script, and no script is shorter. */
  lemma EditsAreLeast(a: string, b: string) returns (p: seq<string>)
    ensures Script(p, a, b) && |p| - 1 == Distance(a, b)
    ensures forall q :: Script(q, a, b) ==> |q| >= |p|
  {
    p := ShortestScript(a, b);
    forall q | Script(q, a, b) ensures |q| >= |p| { NoShorterScript(q, a, b); }
  }
}
