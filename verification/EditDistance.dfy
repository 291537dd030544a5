/** Spelling correction in search: the one-row edit-distance table and the choice of a word from
    the vocabulary. */
module EditDistance {
  import opened Options

  /* ----- What the distance means: scripts of single-character edits ----- */

  datatype Edit = Insert(at: nat, c: char) | Delete(at: nat) | Substitute(at: nat, c: char)

  predicate Applies(e: Edit, s: string) {
    match e
    case Insert(at, _) => at <= |s|
    case Delete(at) => at < |s|
    case Substitute(at, _) => at < |s|
  }

  function Apply(e: Edit, s: string): string
    requires Applies(e, s)
  {
    match e
    case Insert(at, c) => s[..at] + [c] + s[at..]
    case Delete(at) => s[..at] + s[at + 1..]
    case Substitute(at, c) => s[..at] + [c] + s[at + 1..]
  }

  // The script of edits turns `from` into `to`.
  predicate Turns(script: seq<Edit>, from: string, to: string)
    decreases |script|
  {
    if script == [] then from == to
    else Applies(script[0], from) && Turns(script[1..], Apply(script[0], from), to)
  }

  ghost predicate IsDistance(a: string, b: string, d: nat) {
    && (exists script :: |script| == d && Turns(script, a, b))
    && (forall script :: Turns(script, a, b) ==> d <= |script|)
  }

  /* ----- The recurrence the table computes ----- */

  function Min(a: nat, b: nat): nat { if a < b then a else b }

  function Min3(a: nat, b: nat, c: nat): nat { Min(Min(a, b), c) }

  function Front(s: string): string
    requires s != []
  {
    s[..|s| - 1]
  }

  function Last(s: string): char
    requires s != []
  {
    s[|s| - 1]
  }

  function Cost(x: char, y: char): nat { if x == y then 0 else 1 }

  function Lev(a: string, b: string): nat
    decreases |a| + |b|
  {
    if a == [] then |b|
    else if b == [] then |a|
    else Min3(Lev(Front(a), b) + 1, Lev(a, Front(b)) + 1, Lev(Front(a), Front(b)) + Cost(Last(a), Last(b)))
  }

  /* ----- The recurrence is the distance ----- */

  lemma {:induction false} LevSelf(a: string)
    ensures Lev(a, a) == 0
  {
    if a != [] { LevSelf(Front(a)); }
  }

  lemma {:induction false} LevSymmetric(a: string, b: string)
    ensures Lev(a, b) == Lev(b, a)
    decreases |a| + |b|
  {
    if a != [] && b != [] {
      LevSymmetric(Front(a), b);
      LevSymmetric(a, Front(b));
      LevSymmetric(Front(a), Front(b));
    }
  }

  // The distance lies between the difference and the sum of the lengths.
  lemma {:induction false} LevLengths(a: string, b: string)
    ensures |a| <= |b| + Lev(a, b) && |b| <= |a| + Lev(a, b) && Lev(a, b) <= |a| + |b|
    decreases |a| + |b|
  {
    if a != [] && b != [] {
      LevLengths(Front(a), b);
      LevLengths(a, Front(b));
      LevLengths(Front(a), Front(b));
    }
  }

  lemma LevStep(a: string, b: string)
    ensures a != [] ==> Lev(a, b) <= Lev(Front(a), b) + 1
    ensures b != [] ==> Lev(a, b) <= Lev(a, Front(b)) + 1
    ensures a != [] && b != [] ==> Lev(a, b) <= Lev(Front(a), Front(b)) + Cost(Last(a), Last(b))
  {
  }

  lemma {:induction false} LevTriangle(a: string, b: string, c: string)
    ensures Lev(a, c) <= Lev(a, b) + Lev(b, c)
    decreases |a| + |b| + |c|
  {
    if a == [] || b == [] || c == [] {
      LevLengths(a, b);
      LevLengths(b, c);
      LevLengths(a, c);
    } else {
      LevStep(a, c);
      if Lev(a, b) == Lev(Front(a), b) + 1 {
        LevTriangle(Front(a), b, c);
      } else if Lev(b, c) == Lev(b, Front(c)) + 1 {
        LevTriangle(a, b, Front(c));
      } else {
        LevTriangleInner(a, b, c);
      }
    }
  }

  // The cases in which both distances give up the last character of the middle word.
  lemma {:induction false} LevTriangleInner(a: string, b: string, c: string)
    requires a != [] && b != [] && c != []
    requires Lev(a, b) < Lev(Front(a), b) + 1 && Lev(b, c) < Lev(b, Front(c)) + 1
    ensures Lev(a, c) <= Lev(a, b) + Lev(b, c)
    decreases |a| + |b| + |c|, 0
  {
    LevStep(a, c);
    if Lev(a, b) == Lev(a, Front(b)) + 1 {
      if Lev(b, c) == Lev(Front(b), c) + 1 {
        LevTriangle(a, Front(b), c);
      } else {
        LevTriangle(a, Front(b), Front(c));
      }
    } else if Lev(b, c) == Lev(Front(b), c) + 1 {
      LevTriangle(Front(a), Front(b), c);
    } else {
      LevTriangle(Front(a), Front(b), Front(c));
    }
  }

  // A common ending never adds to the distance.
  lemma EndOfConcat(a: string, end: string)
    requires end != []
    ensures Front(a + end) == a + Front(end) && Last(a + end) == Last(end)
  {
  }

  lemma {:induction false} LevSuffix(a: string, b: string, end: string)
    ensures Lev(a + end, b + end) <= Lev(a, b)
    decreases |end|
  {
    hide Lev;
    if end == [] {
      assert a + end == a && b + end == b;
    } else {
      LevSuffix(a, b, Front(end));
      EndOfConcat(a, end);
      EndOfConcat(b, end);
      LevStep(a + end, b + end);
    }
  }

  // The three edits, at the end of p and in front of `end`.
  lemma InsertAt(p: string, c: char, end: string)
    ensures Lev(p + end, p + [c] + end) <= 1
  {
    LevSelf(p);
    assert Front(p + [c]) == p;
    LevStep(p, p + [c]);
    LevSuffix(p, p + [c], end);
  }

  lemma SubstituteAt(p: string, x: char, c: char, end: string)
    ensures Lev(p + [x] + end, p + [c] + end) <= 1
  {
    LevSelf(p);
    assert Front(p + [c]) == p && Front(p + [x]) == p;
    LevStep(p + [x], p + [c]);
    LevSuffix(p + [x], p + [c], end);
  }

  lemma OneEdit(e: Edit, s: string)
    requires Applies(e, s)
    ensures Lev(s, Apply(e, s)) <= 1
  {
    var p := s[..e.at];
    match e
    case Insert(at, c) =>
      assert s == p + s[at..];
      InsertAt(p, c, s[at..]);
    case Delete(at) =>
      assert s == p + [s[at]] + s[at + 1..];
      InsertAt(p, s[at], s[at + 1..]);
      LevSymmetric(p + s[at + 1..], p + [s[at]] + s[at + 1..]);
    case Substitute(at, c) =>
      assert s == p + [s[at]] + s[at + 1..];
      SubstituteAt(p, s[at], c, s[at + 1..]);
  }

  // No script is shorter than the recurrence says.
  lemma {:induction false} NoShorterScript(script: seq<Edit>, a: string, b: string)
    requires Turns(script, a, b)
    ensures Lev(a, b) <= |script|
    decreases |script|
  {
    if script == [] {
      LevSelf(a);
    } else {
      var next := Apply(script[0], a);
      NoShorterScript(script[1..], next, b);
      OneEdit(script[0], a);
      LevTriangle(a, next, b);
    }
  }

  lemma TurnsCons(e: Edit, rest: seq<Edit>, a: string, b: string)
    ensures Turns([e] + rest, a, b) <==> Applies(e, a) && Turns(rest, Apply(e, a), b)
  {
    hide Apply, Applies;
    assert ([e] + rest)[1..] == rest;
  }

  lemma {:induction false} TurnsConcat(first: seq<Edit>, second: seq<Edit>, a: string, b: string, c: string)
    requires Turns(first, a, b) && Turns(second, b, c)
    ensures Turns(first + second, a, c)
    decreases |first|
  {
    if first == [] {
      assert first + second == second;
    } else {
      var e, rest := first[0], first[1..];
      assert first + second == [e] + (rest + second);
      TurnsCons(e, rest + second, a, c);
      hide Apply, Applies;
      TurnsConcat(rest, second, Apply(e, a), b, c);
    }
  }

  lemma AppliesBefore(e: Edit, a: string, x: char)
    requires Applies(e, a)
    ensures Applies(e, a + [x]) && Apply(e, a + [x]) == Apply(e, a) + [x]
  {
  }

  // A script works just as well in front of one more character.
  lemma {:induction false} TurnsBefore(script: seq<Edit>, a: string, b: string, x: char)
    requires Turns(script, a, b)
    ensures Turns(script, a + [x], b + [x])
    decreases |script|
  {
    if script != [] {
      hide Apply, Applies;
      var e := script[0];
      AppliesBefore(e, a, x);
      TurnsBefore(script[1..], Apply(e, a), b, x);
    }
  }

  lemma ThenDelete(a: string, b: string, rest: seq<Edit>)
    requires a != [] && Turns(rest, Front(a), b)
    ensures Turns([Delete(|a| - 1)] + rest, a, b)
  {
    var e := Delete(|a| - 1);
    assert Applies(e, a) && Apply(e, a) == Front(a);
    TurnsCons(e, rest, a, b);
  }

  lemma ThenInsert(a: string, b: string, start: seq<Edit>)
    requires b != [] && Turns(start, a, Front(b))
    ensures Turns(start + [Insert(|b| - 1, Last(b))], a, b)
  {
    var e := Insert(|b| - 1, Last(b));
    assert Apply(e, Front(b)) == b;
    assert [e][1..] == [] && Turns([], b, b);
    TurnsConcat(start, [e], a, Front(b), b);
  }

  lemma ThenSubstitute(a: string, b: string, rest: seq<Edit>)
    requires a != [] && b != [] && Turns(rest, Front(a), Front(b))
    ensures Turns(if Last(a) == Last(b) then rest else [Substitute(|a| - 1, Last(b))] + rest, a, b)
  {
    hide Turns, Apply, Applies;
    TurnsBefore(rest, Front(a), Front(b), Last(b));
    assert Front(b) + [Last(b)] == b;
    if Last(a) == Last(b) {
      assert Front(a) + [Last(b)] == a;
    } else {
      var e := Substitute(|a| - 1, Last(b));
      SubstituteLast(a, Last(b));
      TurnsCons(e, rest, a, b);
    }
  }

  lemma SubstituteLast(a: string, c: char)
    requires a != []
    ensures Applies(Substitute(|a| - 1, c), a) && Apply(Substitute(|a| - 1, c), a) == Front(a) + [c]
  {
  }

  lemma {:induction false} ScriptExists(a: string, b: string) returns (script: seq<Edit>)
    ensures |script| == Lev(a, b) && Turns(script, a, b)
    decreases |a| + |b|
  {
    if a == [] && b == [] {
      script := [];
    } else if b == [] || (a != [] && Lev(a, b) == Lev(Front(a), b) + 1) {
      script := ScriptExists(Front(a), b);
      ThenDelete(a, b, script);
      script := [Delete(|a| - 1)] + script;
    } else if a == [] || Lev(a, b) == Lev(a, Front(b)) + 1 {
      script := ScriptExists(a, Front(b));
      ThenInsert(a, b, script);
      script := script + [Insert(|b| - 1, Last(b))];
    } else {
      script := ScriptExists(Front(a), Front(b));
      ThenSubstitute(a, b, script);
      script := if Last(a) == Last(b) then script else [Substitute(|a| - 1, Last(b))] + script;
    }
  }

  // The recurrence is the least number of single-character edits.
  lemma LevIsDistance(a: string, b: string)
    ensures IsDistance(a, b, Lev(a, b))
  {
    var script := ScriptExists(a, b);
    forall s | Turns(s, a, b) ensures Lev(a, b) <= |s| {
      NoShorterScript(s, a, b);
    }
  }

  lemma DistanceIsAMetric(a: string, b: string, c: string)
    ensures Lev(a, b) == Lev(b, a)
    ensures Lev(a, c) <= Lev(a, b) + Lev(b, c)
    ensures Lev(a, b) == 0 <==> a == b
  {
    LevSymmetric(a, b);
    LevTriangle(a, b, c);
    LevSelf(a);
    if Lev(a, b) == 0 {
      var script := ScriptExists(a, b);
    }
  }

  /* ----- The table ----- */

  // The recurrence by prefix lengths.
  function Table(left: string, right: string, i: nat, j: nat): nat
    requires i <= |left| && j <= |right|
  {
    if i == 0 then j
    else if j == 0 then i
    else Min3(Table(left, right, i - 1, j) + 1, Table(left, right, i, j - 1) + 1,
      Table(left, right, i - 1, j - 1) + Cost(left[i - 1], right[j - 1]))
  }

  lemma TableEdge(left: string, right: string, i: nat, j: nat)
    requires i <= |left| && j <= |right| && (i == 0 || j == 0)
    ensures Table(left, right, i, j) == Lev(left[..i], right[..j])
  {
  }

  lemma {:induction false} TableIsLev(left: string, right: string, i: nat, j: nat)
    requires i <= |left| && j <= |right|
    ensures Table(left, right, i, j) == Lev(left[..i], right[..j])
    decreases i + j
  {
    hide Lev, Min3, Cost;
    if i == 0 || j == 0 {
      TableEdge(left, right, i, j);
    } else {
      TableIsLev(left, right, i - 1, j);
      TableIsLev(left, right, i, j - 1);
      TableIsLev(left, right, i - 1, j - 1);
      Cell(left, right, i, j);
    }
  }

  // What the recurrence says about two prefixes that each grow by one character.
  lemma Cell(left: string, right: string, i: nat, j: nat)
    requires 0 < i <= |left| && 0 < j <= |right|
    ensures Lev(left[..i], right[..j]) ==
      Min3(Lev(left[..i - 1], right[..j]) + 1, Lev(left[..i], right[..j - 1]) + 1,
        Lev(left[..i - 1], right[..j - 1]) + Cost(left[i - 1], right[j - 1]))
  {
    assert Front(left[..i]) == left[..i - 1] && Front(right[..j]) == right[..j - 1];
  }

  function Row(left: string, right: string, i: nat): seq<nat>
    requires i <= |left|
  {
    seq(|right| + 1, j requires 0 <= j <= |right| => Table(left, right, i, j))
  }

  // The row of prefix length i, from the row above it.
  ghost predicate Follows(left: string, right: string, i: nat, above: seq<nat>, here: seq<nat>)
    requires 0 < i <= |left|
  {
    && |above| == |here| == |right| + 1
    && here[0] == i
    && forall j :: 0 < j <= |right| ==>
      here[j] == Min3(above[j] + 1, here[j - 1] + 1, above[j - 1] + Cost(left[i - 1], right[j - 1]))
  }

  lemma RowFollows(left: string, right: string, i: nat)
    requires 0 < i <= |left|
    ensures Follows(left, right, i, Row(left, right, i - 1), Row(left, right, i))
  {
    hide Min3, Cost;
  }

  // The source's editDistance: one row, overwritten in place, with the diagonal kept aside.
  method ComputeEditDistance(left: string, right: string) returns (d: nat)
    ensures IsDistance(left, right, d)
    ensures d == Lev(left, right)
  {
    var previous := new nat[|right| + 1](i => i);
    assert previous[..] == Row(left, right, 0);
    for i := 1 to |left| + 1
      invariant previous[..] == Row(left, right, i - 1)
    {
      RowFollows(left, right, i);
      NextRow(left, right, i, previous, Row(left, right, i));
    }
    d := previous[|right|];
    assert d == previous[..][|right|];
    TableIsLev(left, right, |left|, |right|);
    assert left[..|left|] == left && right[..|right|] == right;
    LevIsDistance(left, right);
  }

  // The inner loop.
  method NextRow(left: string, right: string, i: nat, previous: array<nat>, ghost here: seq<nat>)
    requires 0 < i <= |left| && Follows(left, right, i, previous[..], here)
    modifies previous
    ensures previous[..] == here
  {
    var diagonal := previous[0];
    previous[0] := i;
    for j := 1 to |right| + 1
      invariant diagonal == old(previous[j - 1])
      invariant forall k :: 0 <= k < j ==> previous[k] == here[k]
      invariant forall k :: j <= k <= |right| ==> previous[k] == old(previous[k])
    {
      var above := previous[j];
      previous[j] := Min3(previous[j] + 1, previous[j - 1] + 1,
        diagonal + if left[i - 1] == right[j - 1] then 0 else 1);
      diagonal := above;
    }
  }

  /* ----- Choosing a word ----- */

  datatype Candidate = Candidate(value: string, distance: nat)

  function Candidates(token: string, vocabulary: seq<string>): seq<Candidate> {
    seq(|vocabulary|, i requires 0 <= i < |vocabulary| => Candidate(vocabulary[i], Lev(token, vocabulary[i])))
  }

  // The stable sort by distance: each candidate goes behind those at least as near.
  function Place(sorted: seq<Candidate>, x: Candidate): seq<Candidate> {
    if sorted == [] then [x]
    else if sorted[|sorted| - 1].distance <= x.distance then sorted + [x]
    else Place(sorted[..|sorted| - 1], x) + [sorted[|sorted| - 1]]
  }

  function SortByDistance(cs: seq<Candidate>): seq<Candidate> {
    if cs == [] then [] else Place(SortByDistance(cs[..|cs| - 1]), cs[|cs| - 1])
  }

  function Threshold(token: string): nat { if |token| >= 7 then 2 else 1 }

  function FuzzyVocabularyMatch(token: string, vocabulary: seq<string>): Option<string> {
    if |token| < 4 then None
    else
      var sorted := SortByDistance(Candidates(token, vocabulary));
      if sorted != [] && sorted[0].distance <= Threshold(token) then Some(sorted[0].value) else None
  }

  // Word k is the earliest of the nearest.
  ghost predicate EarliestNearest(cs: seq<Candidate>, k: nat) {
    && k < |cs|
    && (forall j :: 0 <= j < |cs| ==> cs[k].distance <= cs[j].distance)
    && (forall j :: 0 <= j < k ==> cs[k].distance < cs[j].distance)
  }

  ghost predicate Sorted(cs: seq<Candidate>) {
    forall i, j :: 0 <= i < j < |cs| ==> cs[i].distance <= cs[j].distance
  }

  // Placing keeps the order; only a strictly nearer candidate becomes the first.
  lemma {:induction false} PlaceKeepsOrder(sorted: seq<Candidate>, x: Candidate, bound: nat)
    requires Sorted(sorted) && x.distance <= bound && forall i :: 0 <= i < |sorted| ==> sorted[i].distance <= bound
    ensures |Place(sorted, x)| == |sorted| + 1 && Sorted(Place(sorted, x))
    ensures forall i :: 0 <= i <= |sorted| ==> Place(sorted, x)[i].distance <= bound
    ensures Place(sorted, x)[0] == if sorted == [] || x.distance < sorted[0].distance then x else sorted[0]
  {
    if sorted != [] && sorted[|sorted| - 1].distance > x.distance {
      PlaceKeepsOrder(sorted[..|sorted| - 1], x, sorted[|sorted| - 1].distance);
    }
  }

  function Farthest(cs: seq<Candidate>): (d: nat)
    ensures forall i :: 0 <= i < |cs| ==> cs[i].distance <= d
  {
    if cs == [] then 0
    else
      var d := Farthest(cs[..|cs| - 1]);
      if d < cs[|cs| - 1].distance then cs[|cs| - 1].distance else d
  }

  lemma EarlierOrLast(cs: seq<Candidate>, k: nat) returns (k': nat)
    requires |cs| > 1 && EarliestNearest(cs[..|cs| - 1], k)
    ensures EarliestNearest(cs, k') && k' == if cs[|cs| - 1].distance < cs[k].distance then |cs| - 1 else k
  {
    var front := cs[..|cs| - 1];
    assert forall j :: 0 <= j < |front| ==> cs[j] == front[j];
    k' := if cs[|cs| - 1].distance < cs[k].distance then |cs| - 1 else k;
  }

  lemma {:induction false} SortedHead(cs: seq<Candidate>) returns (k: nat)
    requires cs != []
    ensures EarliestNearest(cs, k)
    ensures Sorted(SortByDistance(cs)) && |SortByDistance(cs)| == |cs| && SortByDistance(cs)[0] == cs[k]
  {
    var n := |cs| - 1;
    var front := cs[..n];
    if front == [] {
      k := 0;
      assert SortByDistance(front) == [];
    } else {
      k := SortedHead(front);
      PlaceKeepsOrder(SortByDistance(front), cs[n], Farthest(SortByDistance(front) + [cs[n]]));
      assert forall j :: 0 <= j < n ==> cs[j] == front[j];
      k := EarlierOrLast(cs, k);
    }
  }

  lemma OnlyOneEarliest(cs: seq<Candidate>, i: nat, k: nat)
    requires EarliestNearest(cs, i) && EarliestNearest(cs, k)
    ensures i == k
  {
    var a, b := cs[i].distance, cs[k].distance;
    assert a == b;
  }

  // The match is the earliest vocabulary word at the least distance, given exactly when the token
  // has four characters or more and that distance is within the threshold for its length.
  lemma FuzzyMatchIsEarliestNearest(token: string, vocabulary: seq<string>, w: string)
    ensures FuzzyVocabularyMatch(token, vocabulary) == Some(w) <==>
      && |token| >= 4
      && exists k: nat ::
           EarliestNearest(Candidates(token, vocabulary), k) && vocabulary[k] == w && Lev(token, w) <= Threshold(token)
  {
    var cs := Candidates(token, vocabulary);
    if cs != [] {
      var k := SortedHead(cs);
      assert cs[k] == Candidate(vocabulary[k], Lev(token, vocabulary[k]));
      forall i: nat | EarliestNearest(cs, i) ensures i == k {
        OnlyOneEarliest(cs, i, k);
      }
    }
  }
}
