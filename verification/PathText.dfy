/**
  Slash-separated paths and their length in UTF-8.
*/
module PathText {

  type Name = string
  type Path = seq<Name>

  predicate GoodName(n: Name) {
    n != "" && '/' !in n && n != "." && n != ".."
  }

  function Utf8Bytes(c: char): nat {
    if c as int < 0x80 then 1 else if c as int < 0x800 then 2 else if c as int < 0x10000 then 3 else 4
  }

  function Utf8Length(s: string): nat {
    if s == "" then 0 else Utf8Bytes(s[0]) + Utf8Length(s[1..])
  }

  function Join(path: Path): string {
    if path == [] then "" else if |path| == 1 then path[0]
    else Join(path[..|path| - 1]) + "/" + path[|path| - 1]
  }

  function Split(s: string): (parts: seq<string>)
    ensures |parts| > 0
  {
    if s == "" then [""] else
    var parts, c := Split(s[..|s| - 1]), s[|s| - 1];
    if c == '/' then parts + [""] else parts[|parts| - 1 := parts[|parts| - 1] + [c]]
  }

  predicate GoodNames(path: Path) {
    forall i | 0 <= i < |path| :: GoodName(path[i])
  }

  /** The parts of a path with nothing to resolve: empty ones and dots vanish, two dots take back the name before them. */
  function Normal(parts: seq<string>): (r: seq<string>)
    ensures |r| <= |parts|
  {
    if parts == [] then [] else
    var r, n := Normal(parts[..|parts| - 1]), parts[|parts| - 1];
    if n == "" || n == "." then r
    else if n == ".." then (if r == [] then [] else r[..|r| - 1])
    else r + [n]
  }

  /** A path names its place in the one plain way exactly if none of its parts is empty, a dot or two dots. */
  lemma {:induction false} NormalMeans(parts: seq<string>)
    ensures Normal(parts) == parts <==> forall i | 0 <= i < |parts| :: parts[i] !in ["", ".", ".."]
  {
    if parts != [] {
      var init, n := parts[..|parts| - 1], parts[|parts| - 1];
      NormalMeans(init);
      assert parts == init + [n];
      if Normal(parts) == parts {
        assert |Normal(init)| == |init| && Normal(init) == parts[..|parts| - 1];
      }
    }
  }

  lemma GoodNamesMean(path: Path)
    ensures GoodNames(path) <==> Normal(path) == path && forall i | 0 <= i < |path| :: '/' !in path[i]
  {
    NormalMeans(path);
  }

  lemma {:induction false} SplitAfterSlash(s: string, n: string)
    requires '/' !in n
    ensures Split(s + "/" + n) == Split(s) + [n]
    decreases |n|
  {
    var whole := s + "/" + n;
    if n == "" {
      assert whole[..|whole| - 1] == s;
    } else {
      var m := n[..|n| - 1];
      assert whole[..|whole| - 1] == s + "/" + m;
      SplitAfterSlash(s, m);
      assert n == m + [n[|n| - 1]];
    }
  }

  lemma {:induction false} SplitPlain(n: string)
    requires '/' !in n
    ensures Split(n) == [n]
  {
    if n != "" {
      SplitPlain(n[..|n| - 1]);
      assert n == n[..|n| - 1] + [n[|n| - 1]];
    }
  }

  /** Splitting a joined path gives back its names, so two paths never share a joined form. */
  lemma {:induction false} SplitJoin(path: Path)
    requires path != [] && GoodNames(path)
    ensures Split(Join(path)) == path
    decreases |path|
  {
    if |path| == 1 {
      SplitPlain(path[0]);
    } else {
      var q, n := path[..|path| - 1], path[|path| - 1];
      assert Join(path) == Join(q) + "/" + n && path == q + [n];
      assert GoodName(n) && GoodNames(q);
      SplitJoin(q);
      SplitAfterSlash(Join(q), n);
    }
  }

  /** A text is its parts joined again, so two texts never split alike. */
  lemma {:induction false} JoinSplit(s: string)
    ensures Join(Split(s)) == s
  {
    if s != "" {
      var init, c := s[..|s| - 1], s[|s| - 1];
      var parts := Split(init);
      JoinSplit(init);
      assert s == init + [c];
      if c == '/' {
        assert (parts + [""])[..|parts|] == parts;
      } else {
        var last := parts[|parts| - 1] + [c];
        assert Split(s)[..|parts| - 1] == parts[..|parts| - 1];
      }
    }
  }

  /** The first part of a text starts as the text does. */
  lemma {:induction false} SplitFirst(s: string)
    requires s != "" && s[0] != '/'
    ensures Split(s)[0] != "" && Split(s)[0][0] == s[0]
  {
    if |s| > 1 { SplitFirst(s[..|s| - 1]); }
  }

  lemma {:induction false} Utf8Append(a: string, b: string)
    ensures Utf8Length(a + b) == Utf8Length(a) + Utf8Length(b)
  {
    if a == "" {
      assert a + b == b;
    } else {
      assert (a + b)[1..] == a[1..] + b;
      Utf8Append(a[1..], b);
    }
  }

  predicate Ascii(s: string) {
    forall i | 0 <= i < |s| :: s[i] as int < 0x80
  }

  lemma {:induction false} AsciiLength(s: string)
    requires Ascii(s)
    ensures Utf8Length(s) == |s|
  {
    if s != "" { AsciiLength(s[1..]); }
  }

  /** Comparison of strings by code points. */
  predicate Before(a: string, b: string) {
    if b == "" then false else if a == "" then true
    else a[0] < b[0] || (a[0] == b[0] && Before(a[1..], b[1..]))
  }

  /** The texts agree up to here, and here the first one has the smaller character. */
  predicate SmallerAt(a: string, b: string, k: int) {
    0 <= k < |a| && k < |b| && a[..k] == b[..k] && a[k] < b[k]
  }

  /** A text comes first if it is a proper beginning of the other, or smaller where they first differ. */
  lemma {:induction false} BeforeMeans(a: string, b: string)
    ensures Before(a, b) <==> (|a| < |b| && b[..|a|] == a) || exists k :: SmallerAt(a, b, k)
  {
    if a != "" && b != "" {
      var x, y := a[1..], b[1..];
      BeforeMeans(x, y);
      assert a == [a[0]] + x && b == [b[0]] + y;
      if a[0] < b[0] {
        assert SmallerAt(a, b, 0);
      } else if a[0] == b[0] {
        if |x| < |y| && y[..|x|] == x { assert b[..|a|] == [b[0]] + y[..|x|]; }
        if |a| < |b| && b[..|a|] == a { assert y[..|x|] == b[..|a|][1..]; }
        forall k | SmallerAt(x, y, k) ensures SmallerAt(a, b, k + 1) {
          assert a[..k + 1] == [a[0]] + x[..k] && b[..k + 1] == [b[0]] + y[..k];
        }
        forall k | SmallerAt(a, b, k) ensures SmallerAt(x, y, k - 1) {
          assert x[..k - 1] == a[..k][1..] && y[..k - 1] == b[..k][1..];
        }
      } else {
        assert |a| < |b| ==> b[..|a|][0] == b[0];
        forall k ensures !SmallerAt(a, b, k) {
          assert 0 < k <= |a| && k <= |b| ==> a[..k][0] == a[0] && b[..k][0] == b[0];
        }
      }
    }
  }

  lemma {:induction false} BeforeTotal(a: string, b: string)
    ensures a == b || Before(a, b) || Before(b, a)
    ensures !(Before(a, b) && Before(b, a)) && !Before(a, a)
  {
    if a != "" {
      BeforeTotal(a[1..], a[1..]);
      if b != "" {
        BeforeTotal(a[1..], b[1..]);
        assert a == [a[0]] + a[1..] && b == [b[0]] + b[1..];
      }
    }
  }

  lemma {:induction false} BeforeTransitive(a: string, b: string, c: string)
    requires Before(a, b) && Before(b, c)
    ensures Before(a, c)
  {
    if a != "" && a[0] == b[0] == c[0] { BeforeTransitive(a[1..], b[1..], c[1..]); }
  }
}
