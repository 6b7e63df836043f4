/**
  The evaluator ensemble: one report out of several, by medians. Values are exact reals.
*/
module EvaluatorEnsemble {
  import PathText

  datatype Option<+T> = None | Some(value: T)

  type Name = string

  datatype Detail = Detail(value: real, maximize: bool)
  datatype Report = Report(valid: bool, score: real, quality: Option<real>, details: map<Name, Detail>)

  datatype Combined =
    | Failure                        // a member failed or returned invalid evidence
    | Disagreement
    | Rejected                       // every member says invalid
    | Accepted(score: real, quality: Option<real>, details: map<Name, Detail>)

  // ------------------------------------------------------------ medians

  predicate Ascending(s: seq<real>) {
    forall i, j | 0 <= i < j < |s| :: s[i] <= s[j]
  }

  lemma AscendingAppend(s: seq<real>, x: real)
    requires Ascending(s) && forall y | y in multiset(s) :: y <= x
    ensures Ascending(s + [x])
  {
    var r := s + [x];
    forall i, j | 0 <= i < j < |r| ensures r[i] <= r[j] {
      assert r[i] == s[i] && s[i] in multiset(s);
      if j < |s| { assert r[j] == s[j]; }
    }
  }

  lemma AscendingLast(s: seq<real>)
    requires Ascending(s) && s != []
    ensures Ascending(s[..|s| - 1]) && forall y | y in multiset(s) :: y <= s[|s| - 1]
  {
    forall y | y in multiset(s) ensures y <= s[|s| - 1] {
      var i :| 0 <= i < |s| && s[i] == y;
    }
  }

  function Insert(x: real, s: seq<real>): (r: seq<real>)
    requires Ascending(s)
    ensures Ascending(r) && multiset(r) == multiset(s) + multiset{x}
  {
    if s == [] then [x] else
    var init, last := s[..|s| - 1], s[|s| - 1];
    assert s == init + [last];
    AscendingLast(s);
    if last <= x then
      AscendingAppend(s, x);
      s + [x]
    else
      var r := Insert(x, init);
      AscendingAppend(r, last);
      r + [last]
  }

  function Sort(s: seq<real>): (r: seq<real>)
    ensures Ascending(r) && multiset(r) == multiset(s) && |r| == |s|
  {
    if s == [] then [] else
    var init, last := s[..|s| - 1], s[|s| - 1];
    assert s == init + [last];
    var r := Insert(last, Sort(init));
    assert |multiset(r)| == |r|;
    r
  }

  /** The middle element of an ordered sequence, or the mean of the two. */
  function Middle(r: seq<real>): real
    requires r != []
  {
    var m := |r| / 2;
    if |r| % 2 == 1 then r[m] else (r[m - 1] + r[m]) / 2.0
  }

  /** statistics.median. */
  function Median(s: seq<real>): real
    requires s != []
  {
    Middle(Sort(s))
  }

  lemma SameLast(a: seq<real>, b: seq<real>)
    requires Ascending(a) && Ascending(b) && multiset(a) == multiset(b) && a != []
    ensures b != [] && a[|a| - 1] == b[|b| - 1]
  {
    assert |a| == |multiset(a)| == |multiset(b)| == |b|;
    assert a[|a| - 1] in multiset(a) && b[|b| - 1] in multiset(b);
    AscendingLast(a);
    AscendingLast(b);
  }

  /** An ascending sequence is determined by its elements. */
  lemma {:induction false} SortedOnce(a: seq<real>, b: seq<real>)
    requires Ascending(a) && Ascending(b) && multiset(a) == multiset(b)
    ensures a == b
    decreases |a|
  {
    assert |a| == |multiset(a)| == |multiset(b)| == |b|;
    if a != [] {
      SameLast(a, b);
      WithoutLast(a);
      WithoutLast(b);
      SortedOnce(a[..|a| - 1], b[..|b| - 1]);
    }
  }

  lemma WithoutLast(a: seq<real>)
    requires a != []
    ensures a == a[..|a| - 1] + [a[|a| - 1]] && multiset(a[..|a| - 1]) == multiset(a) - multiset{a[|a| - 1]}
  {
    assert a == a[..|a| - 1] + [a[|a| - 1]];
  }

  lemma MedianOrderFree(a: seq<real>, b: seq<real>)
    requires a != [] && multiset(a) == multiset(b)
    ensures b != [] && Median(a) == Median(b)
  {
    assert |a| == |multiset(a)| == |multiset(b)| == |b|;
    SortedOnce(Sort(a), Sort(b));
  }

  datatype Range = Between(lo: real, hi: real) | Under(bound: real) | Upto(bound: real) | Over(bound: real) | From(bound: real)

  predicate Within(x: real, f: Range) {
    match f
    case Between(lo, hi) => lo <= x <= hi
    case Under(u) => x < u
    case Upto(u) => x <= u
    case Over(v) => x > v
    case From(v) => x >= v
  }

  /** How many values lie in the range. */
  function Count(s: seq<real>, f: Range): nat {
    if s == [] then 0 else Count(s[..|s| - 1], f) + if Within(s[|s| - 1], f) then 1 else 0
  }

  /** How many values lie in the interval. */
  function Inside(s: seq<real>, lo: real, hi: real): nat { Count(s, Between(lo, hi)) }

  lemma {:induction false} CountSplit(s: seq<real>, k: nat, f: Range)
    requires k <= |s|
    ensures Count(s, f) == Count(s[..k], f) + Count(s[k..], f)
    decreases |s|
  {
    if k == |s| {
      assert s[..k] == s && s[k..] == [];
    } else {
      var n := |s| - 1;
      CountSplit(s[..n], k, f);
      assert s[..n][..k] == s[..k] && s[..n][k..] == s[k..][..n - k];
      assert s[k..][|s[k..]| - 1] == s[n];
    }
  }

  lemma {:induction false} CountBounds(s: seq<real>, f: Range)
    ensures Count(s, f) <= |s|
    ensures (forall i | 0 <= i < |s| :: !Within(s[i], f)) ==> Count(s, f) == 0
    ensures (forall i | 0 <= i < |s| :: Within(s[i], f)) ==> Count(s, f) == |s|
  {
    if s != [] {
      var init := s[..|s| - 1];
      CountBounds(init, f);
      assert forall i | 0 <= i < |init| :: init[i] == s[i];
    }
  }

  lemma CountAppend(s: seq<real>, x: real, f: Range)
    ensures Count(s + [x], f) == Count(s, f) + if Within(x, f) then 1 else 0
  {
    assert (s + [x])[..|s|] == s;
  }

  /** Every value lies below an interval, in it or above it. */
  lemma {:induction false} CountThirds(s: seq<real>, lo: real, hi: real)
    requires lo <= hi
    ensures Count(s, Under(lo)) + Inside(s, lo, hi) + Count(s, Over(hi)) == |s|
  {
    if s != [] { CountThirds(s[..|s| - 1], lo, hi); }
  }

  lemma {:induction false} CountInsert(x: real, s: seq<real>, f: Range)
    requires Ascending(s)
    ensures Count(Insert(x, s), f) == Count(s, f) + if Within(x, f) then 1 else 0
  {
    if s == [] {
      CountAppend(s, x, f);
      assert s + [x] == [x];
    } else {
      var init, last := s[..|s| - 1], s[|s| - 1];
      assert s == init + [last];
      if last <= x {
        CountAppend(s, x, f);
      } else {
        CountInsert(x, init, f);
        CountAppend(Insert(x, init), last, f);
        CountAppend(init, last, f);
      }
    }
  }

  lemma {:induction false} CountSort(s: seq<real>, f: Range)
    ensures Count(Sort(s), f) == Count(s, f)
  {
    if s != [] {
      CountSort(s[..|s| - 1], f);
      CountInsert(s[|s| - 1], Sort(s[..|s| - 1]), f);
    }
  }

  /** Below position k all or none, or from there all or none: what the count then is at least or at most. */
  lemma CountFrom(r: seq<real>, k: nat, f: Range)
    requires k <= |r|
    ensures (forall i | 0 <= i < k :: !Within(r[i], f)) ==> Count(r, f) <= |r| - k
    ensures (forall i | k <= i < |r| :: !Within(r[i], f)) ==> Count(r, f) <= k
    ensures (forall i | 0 <= i < k :: Within(r[i], f)) ==> Count(r, f) >= k
    ensures (forall i | k <= i < |r| :: Within(r[i], f)) ==> Count(r, f) >= |r| - k
  {
    CountSplit(r, k, f);
    CountBounds(r[..k], f);
    CountBounds(r[k..], f);
    assert forall i | k <= i < |r| :: r[k..][i - k] == r[i];
  }

  lemma MiddleInside(r: seq<real>, lo: real, hi: real)
    requires Ascending(r) && r != [] && 2 * Inside(r, lo, hi) > |r|
    ensures lo <= Middle(r) <= hi
  {
    var m, f := |r| / 2, Between(lo, hi);
    CountFrom(r, m, f);
    CountFrom(r, m + 1, f);
    if |r| % 2 == 0 { CountFrom(r, m - 1, f); }
  }

  /** The median lies in every interval that holds a strict majority of the values. */
  lemma MedianInMajority(s: seq<real>, lo: real, hi: real)
    requires s != [] && 2 * Inside(s, lo, hi) > |s|
    ensures lo <= Median(s) <= hi
  {
    CountSort(s, Between(lo, hi));
    MiddleInside(Sort(s), lo, hi);
  }

  /** Fewer than half of the values are below u, and at least half are not above it. */
  predicate LowerMiddle(s: seq<real>, u: real) { 2 * Count(s, Under(u)) < |s| <= 2 * Count(s, Upto(u)) }

  /** Fewer than half of the values are above v, and at least half are not below it. */
  predicate UpperMiddle(s: seq<real>, v: real) { 2 * Count(s, Over(v)) < |s| <= 2 * Count(s, From(v)) }

  lemma LowerPlace(r: seq<real>, u: real)
    requires Ascending(r) && r != []
    ensures LowerMiddle(r, u) <==> u == r[(|r| - 1) / 2]
  {
    var k := (|r| - 1) / 2;
    if u < r[k] {
      CountFrom(r, k, Upto(u));
    } else if u > r[k] {
      CountFrom(r, k + 1, Under(u));
    } else {
      CountFrom(r, k, Under(u));
      CountFrom(r, k + 1, Upto(u));
    }
  }

  lemma UpperPlace(r: seq<real>, v: real)
    requires Ascending(r) && r != []
    ensures UpperMiddle(r, v) <==> v == r[|r| / 2]
  {
    var h := |r| / 2;
    if v > r[h] {
      CountFrom(r, h + 1, From(v));
    } else if v < r[h] {
      CountFrom(r, h, Over(v));
    } else {
      CountFrom(r, h + 1, Over(v));
      CountFrom(r, h, From(v));
    }
  }

  /** The median is the mean of the lower and the upper middle value, and no other values are those. */
  lemma MedianMeans(s: seq<real>, u: real, v: real)
    requires s != [] && LowerMiddle(s, u) && UpperMiddle(s, v)
    ensures Median(s) == (u + v) / 2.0
    ensures |s| % 2 == 1 ==> u == v
  {
    SortCounts(s, u, v);
    MiddleMeans(Sort(s), u, v);
  }

  lemma MiddleMeans(r: seq<real>, u: real, v: real)
    requires Ascending(r) && r != [] && LowerMiddle(r, u) && UpperMiddle(r, v)
    ensures Middle(r) == (u + v) / 2.0 && (|r| % 2 == 1 ==> u == v)
  {
    LowerPlace(r, u);
    UpperPlace(r, v);
  }

  lemma SortCounts(s: seq<real>, u: real, v: real)
    ensures LowerMiddle(Sort(s), u) <==> LowerMiddle(s, u)
    ensures UpperMiddle(Sort(s), v) <==> UpperMiddle(s, v)
  {
    CountSort(s, Under(u));
    CountSort(s, Upto(u));
    CountSort(s, Over(v));
    CountSort(s, From(v));
  }

  /** There always are such values, with none of the others strictly between them. */
  lemma MedianHalves(s: seq<real>) returns (u: real, v: real)
    requires s != []
    ensures u in s && v in s && u <= v && LowerMiddle(s, u) && UpperMiddle(s, v)
    ensures forall x | x in s :: !(u < x < v)
    ensures Median(s) == (u + v) / 2.0
  {
    u, v := MiddleHalves(Sort(s));
    SortCounts(s, u, v);
    MedianMeans(s, u, v);
    SameElements(Sort(s), s);
  }

  lemma MiddleHalves(r: seq<real>) returns (u: real, v: real)
    requires Ascending(r) && r != []
    ensures u in r && v in r && u <= v && LowerMiddle(r, u) && UpperMiddle(r, v)
    ensures forall x | x in r :: !(u < x < v)
  {
    u, v := r[(|r| - 1) / 2], r[|r| / 2];
    LowerPlace(r, u);
    UpperPlace(r, v);
    forall x | x in r ensures !(u < x < v) { var i :| 0 <= i < |r| && r[i] == x; }
  }

  lemma SameElements(a: seq<real>, b: seq<real>)
    requires multiset(a) == multiset(b)
    ensures forall x :: x in a <==> x in b
  {
    forall x ensures x in a <==> x in b { assert x in multiset(a) <==> x in multiset(b); }
  }

  // ------------------------------------------------------------ what the members agree on

  /** The values that f finds in the reports, in order. */
  function Collect(reports: seq<Report>, f: Report -> Option<real>): seq<real> {
    if reports == [] then [] else
    var rest, x := Collect(reports[..|reports| - 1], f), f(reports[|reports| - 1]);
    if x.Some? then rest + [x.value] else rest
  }

  function One(x: Option<real>): multiset<real> { if x.Some? then multiset{x.value} else multiset{} }

  lemma CollectAppend(reports: seq<Report>, x: Report, f: Report -> Option<real>)
    ensures multiset(Collect(reports + [x], f)) == multiset(Collect(reports, f)) + One(f(x))
  {
    assert (reports + [x])[..|reports|] == reports;
  }

  lemma {:induction false} CollectWithout(reports: seq<Report>, f: Report -> Option<real>, i: nat)
    requires i < |reports|
    ensures multiset(Collect(reports, f)) == multiset(Collect(reports[..i] + reports[i + 1..], f)) + One(f(reports[i]))
    decreases |reports|
  {
    var n := |reports| - 1;
    var less := reports[..i] + reports[i + 1..];
    var init := reports[..n];
    assert reports == init + [reports[n]];
    CollectAppend(init, reports[n], f);
    if i == n {
      assert less == init;
    } else {
      var rest := init[..i] + init[i + 1..];
      CollectWithout(init, f, i);
      assert less == rest + [reports[n]];
      CollectAppend(rest, reports[n], f);
    }
  }

  lemma DropOne(b: seq<Report>, i: nat)
    requires i < |b|
    ensures multiset(b[..i] + b[i + 1..]) == multiset(b) - multiset{b[i]}
  {
    assert b == b[..i] + ([b[i]] + b[i + 1..]);
    assert multiset(b) == multiset(b[..i]) + multiset([b[i]] + b[i + 1..]);
  }

  lemma FindOne(b: seq<Report>, x: Report) returns (i: nat)
    requires x in multiset(b)
    ensures i < |b| && b[i] == x
  {
    i :| 0 <= i < |b| && b[i] == x;
  }

  lemma RemoveOne(a: seq<Report>, b: seq<Report>)
    returns (i: nat)
    requires multiset(a) == multiset(b) && a != []
    ensures i < |b| == |a| && b[i] == a[|a| - 1]
    ensures multiset(a[..|a| - 1]) == multiset(b[..i] + b[i + 1..])
  {
    assert |a| == |multiset(a)| == |multiset(b)| == |b|;
    assert a[|a| - 1] in multiset(a);
    i := FindOne(b, a[|a| - 1]);
    DropOne(b, i);
    DropOne(a, |a| - 1);
    assert a[..|a| - 1] + a[|a|..] == a[..|a| - 1];
  }

  lemma {:induction false} CollectOrderFree(a: seq<Report>, b: seq<Report>, f: Report -> Option<real>)
    requires multiset(a) == multiset(b)
    ensures multiset(Collect(a, f)) == multiset(Collect(b, f))
    decreases |a|
  {
    assert |a| == |multiset(a)| == |multiset(b)| == |b|;
    if a != [] {
      var i := RemoveOne(a, b);
      var init, less := a[..|a| - 1], b[..i] + b[i + 1..];
      CollectOrderFree(init, less, f);
      CollectWithout(b, f, i);
      CollectWithout(a, f, |a| - 1);
      assert a[..|a| - 1] + a[|a|..] == init;
      assert multiset(Collect(b, f)) == multiset(Collect(less, f)) + One(f(b[i]));
      assert multiset(Collect(a, f)) == multiset(Collect(init, f)) + One(f(b[i]));
    } else {
      assert b == [];
    }
  }

  function ScoreOf(): Report -> Option<real> { (r: Report) => Some(r.score) }
  function QualityOf(): Report -> Option<real> { (r: Report) => r.quality }
  function ValueOf(n: Name): Report -> Option<real> { (r: Report) => if n in r.details then Some(r.details[n].value) else None }

  /** The metric n that every member reports, with one direction. */
  predicate Shared(reports: seq<Report>, n: Name) {
    forall i | 0 <= i < |reports| :: n in reports[i].details
  }

  predicate OneDirection(reports: seq<Report>, n: Name)
    requires Shared(reports, n)
  {
    forall i, j | 0 <= i < |reports| && 0 <= j < |reports| :: reports[i].details[n].maximize == reports[j].details[n].maximize
  }

  function CommonNames(reports: seq<Report>): set<Name>
    requires reports != []
  {
    set n | n in reports[0].details && Shared(reports, n)
  }

  const MAX_METRICS := 8

  function Earlier(names: set<Name>, n: Name): set<Name> { set m | m in names && PathText.Before(m, n) }

  /** The first eight names in order. */
  function FirstNames(names: set<Name>): set<Name> { set n | n in names && |Earlier(names, n)| < MAX_METRICS }

  lemma {:induction false} LastName(names: set<Name>) returns (last: Name)
    requires names != {}
    ensures last in names && forall n | n in names && n != last :: PathText.Before(n, last)
    decreases |names|
  {
    last :| last in names;
    var rest := names - {last};
    if rest != {} {
      var other := LastName(rest);
      PathText.BeforeTotal(last, other);
      if PathText.Before(last, other) {
        last := other;
      } else {
        forall n | n in rest && n != other ensures PathText.Before(n, last) { PathText.BeforeTransitive(n, other, last); }
      }
    }
  }

  /** The cut keeps eight names, or all when there are fewer. */
  lemma {:induction false} FirstNamesCount(names: set<Name>)
    ensures |FirstNames(names)| == if |names| < MAX_METRICS then |names| else MAX_METRICS
    decreases |names|
  {
    if names == {} {
      assert FirstNames(names) == {};
    } else {
      var last := LastName(names);
      var rest := names - {last};
      FirstNamesCount(rest);
      PathText.BeforeTotal(last, last);
      assert Earlier(names, last) == rest;
      forall n | n in rest ensures Earlier(names, n) == Earlier(rest, n) { PathText.BeforeTotal(n, last); }
      assert FirstNames(names) == FirstNames(rest) + if |rest| < MAX_METRICS then {last} else {};
    }
  }

  /** Every name that is kept comes before every name that is not. */
  lemma KeptComeFirst(names: set<Name>, n: Name, m: Name)
    requires n in FirstNames(names) && m in names && m !in FirstNames(names)
    ensures PathText.Before(n, m)
  {
    PathText.BeforeTotal(n, m);
    if PathText.Before(m, n) {
      forall x | x in Earlier(names, m) ensures x in Earlier(names, n) { PathText.BeforeTransitive(x, m, n); }
      Fewer(Earlier(names, m), Earlier(names, n));
    }
  }

  lemma Fewer(a: set<Name>, b: set<Name>)
    requires a <= b
    ensures |a| <= |b|
  {
    assert a + (b - a) == b;
  }

  lemma {:induction false} CollectAll(reports: seq<Report>, f: Report -> Option<real>)
    requires forall i | 0 <= i < |reports| :: f(reports[i]).Some?
    ensures |Collect(reports, f)| == |reports|
  {
    if reports != [] { CollectAll(reports[..|reports| - 1], f); }
  }

  predicate DetailOf(reports: seq<Report>, details: map<Name, Detail>, n: Name)
    requires reports != []
  {
    && (n in details <==> n in CommonNames(reports) && n in FirstNames(CommonNames(reports)) && OneDirection(reports, n))
    && (n in details ==>
          var values := Collect(reports, ValueOf(n));
          values != [] && details[n] == Detail(Median(values), reports[0].details[n].maximize))
  }

  /** How the shared metrics of valid reports combine. */
  ghost predicate DetailsOf(reports: seq<Report>, details: map<Name, Detail>)
    requires reports != []
  {
    forall n {:trigger DetailOf(reports, details, n)} :: DetailOf(reports, details, n)
  }

  /** What a combined report says about the members' reports. */
  ghost predicate Combines(reports: seq<Report>, c: Combined)
    requires reports != []
  {
    && c.Accepted?
    && Collect(reports, ScoreOf()) != [] && c.score == Median(Collect(reports, ScoreOf()))
    && (Collect(reports, QualityOf()) == [] ==> c.quality == None)
    && (Collect(reports, QualityOf()) != [] ==> c.quality == Some(Median(Collect(reports, QualityOf()))))
    && DetailsOf(reports, c.details)
  }

  predicate AllValid(members: seq<Option<Report>>) {
    forall i | 0 <= i < |members| :: members[i].Some? && members[i].value.valid
  }

  function Reports(members: seq<Option<Report>>): (r: seq<Report>)
    requires forall i | 0 <= i < |members| :: members[i].Some?
    ensures |r| == |members| && forall i | 0 <= i < |members| :: r[i] == members[i].value
  {
    seq(|members|, i requires 0 <= i < |members| => members[i].value)
  }

  /** The members one by one, up to the first that fails. */
  method CallMembers(members: seq<Option<Report>>) returns (reports: Option<seq<Report>>)
    ensures reports.None? <==> exists i :: 0 <= i < |members| && members[i].None?
    ensures reports.Some? ==> |reports.value| == |members| && forall i | 0 <= i < |members| :: members[i] == Some(reports.value[i])
  {
    var found: seq<Report> := [];
    while |found| < |members|
      invariant |found| <= |members|
      invariant forall i | 0 <= i < |found| :: members[i] == Some(found[i])
    {
      var member := members[|found|];
      if member.None? { return None; }
      found := found + [member.value];
    }
    return Some(found);
  }

  method Agree(reports: seq<Report>) returns (b: bool)
    requires reports != []
    ensures b <==> forall i | 0 <= i < |reports| :: reports[i].valid == reports[0].valid
  {
    var i := 1;
    while i < |reports|
      invariant 1 <= i <= |reports| && forall j | 0 <= j < i :: reports[j].valid == reports[0].valid
    {
      if reports[i].valid != reports[0].valid { return false; }
      i := i + 1;
    }
    return true;
  }

  /** The call; None stands for a member that failed. */
  method Evaluate(members: seq<Option<Report>>) returns (c: Combined)
    requires |members| >= 2
    ensures c.Accepted? <==> AllValid(members)
    ensures c.Accepted? ==> Combines(Reports(members), c)
    ensures c.Failure? <==> exists i :: 0 <= i < |members| && members[i].None?
    ensures c.Rejected? <==> forall i | 0 <= i < |members| :: members[i].Some? && !members[i].value.valid
  {
    var called := CallMembers(members);
    if called.None? { return Failure; }
    var reports := called.value;
    assert reports == Reports(members);
    var agreed := Agree(reports);
    if !agreed { return Disagreement; }
    if !reports[0].valid { return Rejected; }
    c := Combine(reports);
  }

  method Combine(reports: seq<Report>) returns (c: Combined)
    requires reports != []
    ensures Combines(reports, c)
  {
    CollectAll(reports, ScoreOf());
    var qualities := Collect(reports, QualityOf());
    var details := CombineDetails(reports);
    c := Accepted(Median(Collect(reports, ScoreOf())), if qualities == [] then None else Some(Median(qualities)), details);
  }

  method CombineDetails(reports: seq<Report>) returns (details: map<Name, Detail>)
    requires reports != []
    ensures DetailsOf(reports, details)
  {
    var common := reports[0].details.Keys;
    var i := 1;
    while i < |reports|
      invariant 1 <= i <= |reports|
      invariant forall n :: n in common <==> forall j | 0 <= j < i :: n in reports[j].details
    {
      common := common * reports[i].details.Keys;
      i := i + 1;
    }
    assert common == CommonNames(reports);
    var names := FirstNames(common);
    details := map[];
    var rest := names;
    while rest != {}
      invariant rest <= names
      invariant forall n :: n in details <==> n in names && n !in rest && OneDirection(reports, n)
      invariant forall n | n in details ::
        var values := Collect(reports, ValueOf(n));
        values != [] && details[n] == Detail(Median(values), reports[0].details[n].maximize)
    {
      var n :| n in rest;
      rest := rest - {n};
      if forall j, k | 0 <= j < |reports| && 0 <= k < |reports| :: reports[j].details[n].maximize == reports[k].details[n].maximize {
        CollectAll(reports, ValueOf(n));
        details := details[n := Detail(Median(Collect(reports, ValueOf(n))), reports[0].details[n].maximize)];
      }
    }
    assert forall n :: DetailOf(reports, details, n);
  }

  // ------------------------------------------------------------ what a combined report means

  lemma SharedOrderFree(a: seq<Report>, b: seq<Report>, n: Name)
    requires multiset(a) == multiset(b) && Shared(a, n)
    ensures Shared(b, n) && (OneDirection(a, n) ==> OneDirection(b, n))
  {
    forall i | 0 <= i < |b| ensures n in b[i].details && exists j :: 0 <= j < |a| && a[j] == b[i] {
      assert b[i] in multiset(b) && b[i] in multiset(a);
    }
  }

  /** The order of the members changes neither the score nor the quality nor any metric. */
  lemma CombinedOrderFree(a: seq<Report>, b: seq<Report>, c: Combined, d: Combined)
    requires a != [] && b != [] && multiset(a) == multiset(b) && Combines(a, c) && Combines(b, d)
    ensures c == d
  {
    CollectOrderFree(a, b, ScoreOf());
    MedianOrderFree(Collect(a, ScoreOf()), Collect(b, ScoreOf()));
    CollectOrderFree(a, b, QualityOf());
    if Collect(a, QualityOf()) != [] { MedianOrderFree(Collect(a, QualityOf()), Collect(b, QualityOf())); }
    QualitySame(a, b);
    DetailsOrderFree(a, b, c.details, d.details);
  }

  lemma QualitySame(a: seq<Report>, b: seq<Report>)
    requires multiset(Collect(a, QualityOf())) == multiset(Collect(b, QualityOf()))
    ensures Collect(a, QualityOf()) == [] <==> Collect(b, QualityOf()) == []
  {
    var x, y := Collect(a, QualityOf()), Collect(b, QualityOf());
    assert |x| == |multiset(x)| == |multiset(y)| == |y|;
  }

  lemma NamesOrderFree(a: seq<Report>, b: seq<Report>)
    requires a != [] && b != [] && multiset(a) == multiset(b)
    ensures CommonNames(a) == CommonNames(b)
  {
    forall n ensures n in CommonNames(a) <==> n in CommonNames(b) {
      if Shared(a, n) { SharedOrderFree(a, b, n); }
      if Shared(b, n) { SharedOrderFree(b, a, n); }
    }
  }

  lemma SameNames(a: seq<Report>, b: seq<Report>, x: map<Name, Detail>, y: map<Name, Detail>, n: Name)
    requires a != [] && b != [] && multiset(a) == multiset(b) && DetailsOf(a, x) && DetailsOf(b, y)
    requires n in x
    ensures n in y
  {
    assert DetailOf(a, x, n) && DetailOf(b, y, n);
    NamesOrderFree(a, b);
    SharedOrderFree(a, b, n);
  }

  lemma SameDetail(a: seq<Report>, b: seq<Report>, x: map<Name, Detail>, y: map<Name, Detail>, n: Name)
    requires a != [] && b != [] && multiset(a) == multiset(b) && DetailsOf(a, x) && DetailsOf(b, y)
    requires n in x && n in y
    ensures x[n] == y[n]
  {
    assert DetailOf(a, x, n) && DetailOf(b, y, n);
    CollectOrderFree(a, b, ValueOf(n));
    MedianOrderFree(Collect(a, ValueOf(n)), Collect(b, ValueOf(n)));
    assert a[0] in multiset(a) && a[0] in multiset(b);
    var i :| 0 <= i < |b| && b[i] == a[0];
    assert OneDirection(b, n);
  }

  lemma DetailsOrderFree(a: seq<Report>, b: seq<Report>, x: map<Name, Detail>, y: map<Name, Detail>)
    requires a != [] && b != [] && multiset(a) == multiset(b) && DetailsOf(a, x) && DetailsOf(b, y)
    ensures x == y
  {
    forall n ensures n in x <==> n in y {
      if n in x { SameNames(a, b, x, y, n); }
      if n in y { SameNames(b, a, y, x, n); }
    }
    forall n | n in x ensures x[n] == y[n] { SameDetail(a, b, x, y, n); }
  }

  /** The score and every emitted metric lie in each interval that holds a strict majority of the members' values. */
  lemma CombinedInMajority(reports: seq<Report>, c: Combined, lo: real, hi: real)
    requires reports != [] && Combines(reports, c)
    ensures 2 * Inside(Collect(reports, ScoreOf()), lo, hi) > |reports| ==> lo <= c.score <= hi
    ensures forall n | n in c.details && 2 * Inside(Collect(reports, ValueOf(n)), lo, hi) > |reports| :: lo <= c.details[n].value <= hi
  {
    CollectAll(reports, ScoreOf());
    if 2 * Inside(Collect(reports, ScoreOf()), lo, hi) > |reports| { MedianInMajority(Collect(reports, ScoreOf()), lo, hi); }
    forall n | n in c.details && 2 * Inside(Collect(reports, ValueOf(n)), lo, hi) > |reports| ensures lo <= c.details[n].value <= hi {
      assert DetailOf(reports, c.details, n);
      CollectAll(reports, ValueOf(n));
      MedianInMajority(Collect(reports, ValueOf(n)), lo, hi);
    }
  }
}

/**
  Search memory and the allocation of algorithm families: which family an explore or diversify
  generation is given, as a function of the archive alone.
*/
module FamilyAllocation {
  import PathText

  type Tag = string

  datatype Option<+T> = None | Some(value: T)
  datatype Outcome = Invalid | Seed | Improved | Regressed | Unchanged

  /** An archived candidate: the tags of its experiment plan, if it carries a valid one. */
  datatype Entry = Entry(tags: Option<seq<Tag>>, outcome: Outcome)

  type Tally = map<Outcome, nat>

  const MAX_TAG_SUMMARIES := 32

  predicate DistinctTags(tags: seq<Tag>) {
    forall i, j | 0 <= i < j < |tags| :: tags[i] != tags[j]
  }

  predicate WellFormed(archive: seq<Entry>) {
    forall i | 0 <= i < |archive| && archive[i].tags.Some? :: DistinctTags(archive[i].tags.value)
  }

  predicate Declares(e: Entry, tag: Tag) { e.tags.Some? && tag in e.tags.value }

  /** How many archived candidates declare the tag. */
  function Declaring(archive: seq<Entry>, tag: Tag): nat {
    if archive == [] then 0 else
    Declaring(archive[..|archive| - 1], tag) + if Declares(archive[|archive| - 1], tag) then 1 else 0
  }

  /** How many of them came out this way. */
  function Seen(archive: seq<Entry>, tag: Tag, o: Outcome): nat {
    if archive == [] then 0 else
    var e := archive[|archive| - 1];
    Seen(archive[..|archive| - 1], tag, o) + if Declares(e, tag) && e.outcome == o then 1 else 0
  }

  lemma {:induction false} SeenSum(archive: seq<Entry>, tag: Tag)
    ensures Declaring(archive, tag) == Seen(archive, tag, Invalid) + Seen(archive, tag, Seed) + Seen(archive, tag, Improved)
                                       + Seen(archive, tag, Regressed) + Seen(archive, tag, Unchanged)
  {
    if archive != [] { SeenSum(archive[..|archive| - 1], tag); }
  }

  function Get(t: Tally, o: Outcome): nat { if o in t then t[o] else 0 }

  /** The sum over a tag's outcomes. */
  function TotalOf(t: Tally): nat {
    Get(t, Invalid) + Get(t, Seed) + Get(t, Improved) + Get(t, Regressed) + Get(t, Unchanged)
  }

  function CountIn(m: map<Tag, Tally>, tag: Tag): nat { if tag in m then TotalOf(m[tag]) else 0 }

  function OutcomeIn(m: map<Tag, Tally>, tag: Tag, o: Outcome): nat { if tag in m then Get(m[tag], o) else 0 }

  /** One more outcome for one tag. */
  function Noted(m: map<Tag, Tally>, tag: Tag, o: Outcome): map<Tag, Tally> {
    var t := if tag in m then m[tag] else map[];
    m[tag := t[o := Get(t, o) + 1]]
  }

  /** What the tallies say of a tag is what the archive shows. */
  ghost predicate CountedAt(m: map<Tag, Tally>, archive: seq<Entry>, tag: Tag) {
    && (tag in m <==> Declaring(archive, tag) > 0)
    && forall o :: OutcomeIn(m, tag, o) == Seen(archive, tag, o)
  }

  ghost predicate Counts(m: map<Tag, Tally>, archive: seq<Entry>) {
    forall tag {:trigger CountedAt(m, archive, tag)} :: CountedAt(m, archive, tag)
  }

  lemma CountedTotal(m: map<Tag, Tally>, archive: seq<Entry>, tag: Tag)
    requires CountedAt(m, archive, tag)
    ensures CountIn(m, tag) == Declaring(archive, tag)
  {
    SeenSum(archive, tag);
    assert forall o :: OutcomeIn(m, tag, o) == Seen(archive, tag, o);
  }

  /** The tallies before the candidate e, and after those of its tags that come before place k. */
  ghost predicate HalfCounted(before: map<Tag, Tally>, m: map<Tag, Tally>, e: Entry, k: int, tag: Tag)
    requires e.tags.Some? && 0 <= k <= |e.tags.value|
  {
    && (tag in m <==> tag in before || tag in e.tags.value[..k])
    && forall o {:trigger OutcomeIn(m, tag, o)} :: OutcomeIn(m, tag, o) == OutcomeIn(before, tag, o) + if tag in e.tags.value[..k] && o == e.outcome then 1 else 0
  }

  ghost predicate HalfCounts(before: map<Tag, Tally>, m: map<Tag, Tally>, e: Entry, k: int)
    requires e.tags.Some? && 0 <= k <= |e.tags.value|
  {
    forall tag {:trigger HalfCounted(before, m, e, k, tag)} :: HalfCounted(before, m, e, k, tag)
  }

  lemma NotedHalf(before: map<Tag, Tally>, m: map<Tag, Tally>, e: Entry, k: int)
    requires e.tags.Some? && 0 <= k < |e.tags.value| && DistinctTags(e.tags.value) && HalfCounts(before, m, e, k)
    ensures HalfCounts(before, Noted(m, e.tags.value[k], e.outcome), e, k + 1)
  {
    var tag, after, next := e.tags.value[k], Noted(m, e.tags.value[k], e.outcome), k + 1;
    assert e.tags.value[..next] == e.tags.value[..k] + [tag] && tag !in e.tags.value[..k];
    forall t ensures HalfCounted(before, after, e, next, t) {
      assert HalfCounted(before, m, e, k, t);
      forall o ensures OutcomeIn(after, t, o) == OutcomeIn(m, t, o) + if t == tag && o == e.outcome then 1 else 0 {}
    }
  }

  lemma HalfWhole(before: map<Tag, Tally>, m: map<Tag, Tally>, archive: seq<Entry>, e: Entry)
    requires e.tags.Some? && Counts(before, archive) && HalfCounts(before, m, e, |e.tags.value|)
    ensures Counts(m, archive + [e])
  {
    assert (archive + [e])[..|archive|] == archive && e.tags.value[..|e.tags.value|] == e.tags.value;
    forall tag ensures CountedAt(m, archive + [e], tag) {
      assert CountedAt(before, archive, tag) && HalfCounted(before, m, e, |e.tags.value|, tag);
    }
  }

  lemma NothingNoted(m: map<Tag, Tally>, archive: seq<Entry>, e: Entry)
    requires e.tags.None? && Counts(m, archive)
    ensures Counts(m, archive + [e])
  {
    assert (archive + [e])[..|archive|] == archive;
    forall tag ensures CountedAt(m, archive + [e], tag) { assert CountedAt(m, archive, tag); }
  }

  /** The counting loop of _experiment_memory. */
  method CountTags(archive: seq<Entry>) returns (m: map<Tag, Tally>)
    requires WellFormed(archive)
    ensures Counts(m, archive)
  {
    m := map[];
    var i := 0;
    while i < |archive|
      invariant 0 <= i <= |archive| && Counts(m, archive[..i])
    {
      var e := archive[i];
      assert archive[..i + 1] == archive[..i] + [e];
      if e.tags.Some? {
        ghost var before := m;
        var k := 0;
        while k < |e.tags.value|
          invariant 0 <= k <= |e.tags.value| && HalfCounts(before, m, e, k)
        {
          NotedHalf(before, m, e, k);
          m := Noted(m, e.tags.value[k], e.outcome);
          k := k + 1;
        }
        HalfWhole(before, m, archive[..i], e);
      } else {
        NothingNoted(m, archive[..i], e);
      }
      i := i + 1;
    }
    assert archive[..i] == archive;
  }

  /** The part of m that is in all. */
  predicate Part(m: map<Tag, Tally>, all: map<Tag, Tally>) {
    forall tag | tag in m :: tag in all && m[tag] == all[tag]
  }

  /** Those of the tags that occur. */
  function Occurring(tags: seq<Tag>, keys: set<Tag>): seq<Tag> {
    if tags == [] then [] else
    var rest, tag := Occurring(tags[..|tags| - 1], keys), tags[|tags| - 1];
    if tag in keys then rest + [tag] else rest
  }

  lemma {:induction false} OccurringSize(tags: seq<Tag>, keys: set<Tag>)
    ensures |set t | t in tags && t in keys| <= |Occurring(tags, keys)| <= |tags|
  {
    if tags == [] {
      assert (set t | t in tags && t in keys) == {};
    } else {
      var init, tag := tags[..|tags| - 1], tags[|tags| - 1];
      OccurringSize(init, keys);
      assert tags == init + [tag];
      assert (set t | t in tags && t in keys) == (set t | t in init && t in keys) + if tag in keys then {tag} else {};
    }
  }

  function Later(tags: set<Tag>, tag: Tag): set<Tag> { set t | t in tags && PathText.Before(tag, t) }

  /** The last n tags in order. */
  function LastTags(tags: set<Tag>, n: int): set<Tag> { set t | t in tags && |Later(tags, t)| < n }

  lemma {:induction false} FirstTag(tags: set<Tag>) returns (first: Tag)
    requires tags != {}
    ensures first in tags && forall t | t in tags && t != first :: PathText.Before(first, t)
    decreases |tags|
  {
    first :| first in tags;
    var rest := tags - {first};
    if rest != {} {
      var other := FirstTag(rest);
      PathText.BeforeTotal(first, other);
      if PathText.Before(other, first) {
        first := other;
      } else {
        forall t | t in rest && t != other ensures PathText.Before(first, t) { PathText.BeforeTransitive(first, other, t); }
      }
    }
  }

  lemma {:induction false} LastTagsCount(tags: set<Tag>, n: nat)
    ensures |LastTags(tags, n)| == if |tags| < n then |tags| else n
    decreases |tags|
  {
    if tags == {} {
      assert LastTags(tags, n) == {};
    } else {
      var first := FirstTag(tags);
      var rest := tags - {first};
      LastTagsCount(rest, n);
      PathText.BeforeTotal(first, first);
      assert Later(tags, first) == rest;
      forall t | t in rest ensures Later(tags, t) == Later(rest, t) { PathText.BeforeTotal(t, first); }
      assert LastTags(tags, n) == LastTags(rest, n) + if |rest| < n then {first} else {};
    }
  }

  /** The tags of the other tallies. */
  function Others(all: map<Tag, Tally>, retained: seq<Tag>): set<Tag> { set t | t in all && t !in retained }

  /** How many others there is room for. */
  function Room(all: map<Tag, Tally>, retained: seq<Tag>): int { MAX_TAG_SUMMARIES - |Occurring(retained, all.Keys)| }

  function CutTags(all: map<Tag, Tally>, retained: seq<Tag>): map<Tag, Tally> {
    map t | t in all && (t in retained || t in LastTags(Others(all, retained), Room(all, retained))) :: all[t]
  }

  lemma CutSize(all: map<Tag, Tally>, retained: seq<Tag>)
    requires |retained| <= MAX_TAG_SUMMARIES
    ensures |CutTags(all, retained)| <= MAX_TAG_SUMMARIES
  {
    OccurringSize(retained, all.Keys);
    var kept, last := (set t | t in retained && t in all.Keys), LastTags(Others(all, retained), Room(all, retained));
    LastTagsCount(Others(all, retained), Room(all, retained));
    Joined(kept, last);
    assert CutTags(all, retained).Keys == kept + last;
    assert |CutTags(all, retained)| == |CutTags(all, retained).Keys|;
  }

  lemma Joined(a: set<Tag>, b: set<Tag>)
    ensures |a + b| <= |a| + |b|
  {
    assert a + b == a + (b - a);
    assert |b - a| <= |b| by { assert b == (b - a) + (b * a); }
  }

  /**
    _experiment_memory: of the tags that occur, the retained ones survive the cut to 32 summaries, and of the others
    the last in order, as many as there is room for; every tally that survives is exact.
  */
  method ExperimentMemory(archive: seq<Entry>, retained: seq<Tag>) returns (m: map<Tag, Tally>, ghost all: map<Tag, Tally>)
    requires WellFormed(archive) && |retained| <= MAX_TAG_SUMMARIES
    ensures Counts(all, archive) && Part(m, all)
    ensures forall tag | tag in all ::
      tag in m <==> tag in retained || |Later(Others(all, retained), tag)| < MAX_TAG_SUMMARIES - |Occurring(retained, all.Keys)|
    ensures forall tag | tag in m || tag in retained :: CountIn(m, tag) == Declaring(archive, tag)
    ensures |m| <= MAX_TAG_SUMMARIES
  {
    var counted := CountTags(archive);
    all := counted;
    m := CutTags(counted, retained);
    CutSize(counted, retained);
    forall tag | tag in m || tag in retained ensures CountIn(m, tag) == Declaring(archive, tag) {
      assert CountedAt(all, archive, tag);
      CountedTotal(all, archive, tag);
    }
  }

  /** The allotted family of an explore or diversify generation: least tried, first in the repertoire. */
  predicate IsAllotted(repertoire: seq<Tag>, archive: seq<Entry>, k: int) {
    && 0 <= k < |repertoire|
    && (forall j | 0 <= j < |repertoire| :: Declaring(archive, repertoire[k]) <= Declaring(archive, repertoire[j]))
    && (forall j | 0 <= j < k :: Declaring(archive, repertoire[j]) > Declaring(archive, repertoire[k]))
  }

  method AllotFamily(repertoire: seq<Tag>, archive: seq<Entry>) returns (k: int)
    requires WellFormed(archive) && DistinctTags(repertoire) && 0 < |repertoire| <= MAX_TAG_SUMMARIES
    ensures IsAllotted(repertoire, archive, k)
  {
    ghost var all;
    var memory;
    memory, all := ExperimentMemory(archive, repertoire);
    k := 0;
    var i := 1;
    while i < |repertoire|
      invariant 1 <= i <= |repertoire| && 0 <= k < i
      invariant forall j | 0 <= j < i :: Declaring(archive, repertoire[k]) <= Declaring(archive, repertoire[j])
      invariant forall j | 0 <= j < k :: Declaring(archive, repertoire[j]) > Declaring(archive, repertoire[k])
    {
      assert repertoire[i] in repertoire && repertoire[k] in repertoire;
      if CountIn(memory, repertoire[i]) < CountIn(memory, repertoire[k]) { k := i; }
      i := i + 1;
    }
  }

  datatype Mode = Explore | Diversify | Repair | Refine | Recombine

  /** _search_directive: the mode of a generation. */
  function ModeOf(parent: Option<bool>, inspired: bool, archive: seq<Entry>): Mode {
    if parent == Some(false) || (parent.None? && archive != [] && archive[|archive| - 1].outcome.Invalid?) then Repair
    else if parent == Some(true) && inspired then Recombine
    else if parent == Some(true) then Refine
    else if archive != [] then Diversify
    else Explore
  }

  /**
    An invalid parent is repaired and a valid one refined, or combined with what inspires; without a parent the
    latest candidate is repaired if it is invalid, and otherwise the search goes on, or begins.
  */
  lemma ModeMeans(parent: Option<bool>, inspired: bool, archive: seq<Entry>)
    ensures var mode := ModeOf(parent, inspired, archive);
            && (mode.Refine? || mode.Recombine? <==> parent == Some(true)) && (mode.Recombine? ==> inspired) && (mode.Refine? ==> !inspired)
            && (mode.Explore? <==> parent.None? && archive == [])
            && (mode.Diversify? <==> parent.None? && archive != [] && !archive[|archive| - 1].outcome.Invalid?)
            && (mode.Repair? <==> parent == Some(false) || (parent.None? && archive != [] && archive[|archive| - 1].outcome.Invalid?))
  {
    match parent
    case None =>
    case Some(valid) => if valid { assert parent == Some(true); } else { assert parent == Some(false); }
  }

  // ------------------------------------------------------------ fairness

  /** After n fair rounds, family j has been tried n / m times, and once more if j < n % m. */
  predicate RoundRobin(repertoire: seq<Tag>, archive: seq<Entry>, n: nat)
    requires repertoire != []
  {
    forall j | 0 <= j < |repertoire| ::
      Declaring(archive, repertoire[j]) == n / |repertoire| + if j < n % |repertoire| then 1 else 0
  }

  lemma Spread(a: int, b: int, m: int)
    ensures (a - b) * m == a * m - b * m
  {
  }

  lemma AtLeast(a: int, m: int)
    requires a >= 1 && m >= 0
    ensures a * m >= m
  {
    Spread(a, 1, m);
    assert (a - 1) * m >= 0;
  }

  /** Quotient and remainder are unique. */
  lemma DivMod(n: nat, m: nat, q: nat, r: nat)
    requires m > 0 && r < m && n == q * m + r
    ensures n / m == q && n % m == r
  {
    var s, t := n / m, n % m;
    assert n == s * m + t;
    Spread(q, s, m);
    Spread(s, q, m);
    if q > s { AtLeast(q - s, m); }
    if s > q { AtLeast(s - q, m); }
  }

  lemma NextRound(n: nat, m: nat)
    requires m > 0
    ensures n % m + 1 < m ==> (n + 1) / m == n / m && (n + 1) % m == n % m + 1
    ensures n % m + 1 == m ==> (n + 1) / m == n / m + 1 && (n + 1) % m == 0
  {
    var q, r := n / m, n % m;
    assert n == q * m + r;
    if r + 1 < m {
      DivMod(n + 1, m, q, r + 1);
    } else {
      Spread(q + 1, 1, m);
      DivMod(n + 1, m, q + 1, 0);
    }
  }

  /** In a balanced archive the next family is the next in the repertoire, and the archive stays balanced. */
  lemma NextFamily(repertoire: seq<Tag>, archive: seq<Entry>, n: nat, k: int, outcome: Outcome)
    requires repertoire != [] && DistinctTags(repertoire) && RoundRobin(repertoire, archive, n) && IsAllotted(repertoire, archive, k)
    ensures k == n % |repertoire|
    ensures RoundRobin(repertoire, archive + [Entry(Some([repertoire[k]]), outcome)], n + 1)
  {
    var m := |repertoire|;
    NextRound(n, m);
    var e := Entry(Some([repertoire[k]]), outcome);
    assert (archive + [e])[..|archive|] == archive;
    assert Declaring(archive, repertoire[n % m]) == n / m;
    assert k == n % m;
    forall j | 0 <= j < m
      ensures Declaring(archive + [e], repertoire[j]) == (n + 1) / m + if j < (n + 1) % m then 1 else 0
    {
      assert Declares(e, repertoire[j]) <==> j == k;
    }
  }

  /** Parentless generations, each archived as valid under exactly the family it was allotted. */
  method Generations(repertoire: seq<Tag>, n: nat) returns (archive: seq<Entry>)
    requires DistinctTags(repertoire) && 0 < |repertoire| <= MAX_TAG_SUMMARIES
    ensures |archive| == n
    ensures forall i | 0 <= i < n :: archive[i].tags == Some([repertoire[i % |repertoire|]])
    ensures forall i | 0 <= i < n :: ModeOf(None, false, archive[..i]).Explore? || ModeOf(None, false, archive[..i]).Diversify?
    ensures forall j, k | 0 <= j < |repertoire| && 0 <= k < |repertoire| ::
      Declaring(archive, repertoire[j]) <= Declaring(archive, repertoire[k]) + 1
  {
    archive := [];
    while |archive| < n
      invariant |archive| <= n && WellFormed(archive) && RoundRobin(repertoire, archive, |archive|)
      invariant forall i | 0 <= i < |archive| :: archive[i] == Entry(Some([repertoire[i % |repertoire|]]), Seed)
    {
      var k := AllotFamily(repertoire, archive);
      NextFamily(repertoire, archive, |archive|, k, Seed);
      archive := archive + [Entry(Some([repertoire[k]]), Seed)];
    }
  }
}
