/** Strings as the command line tool uses them: Python's ordering of `str`, its `str(int)`, its `casefold`
    (restricted to the ASCII letters) and the split of a membership identity at its last '@'. */
module Text {

  /** Lexicographic order by code point, as Python compares two strings. */
  predicate StrLe(a: string, b: string)
    decreases |a|
  {
    a == [] || (b != [] && if a[0] == b[0] then StrLe(a[1..], b[1..]) else a[0] < b[0])
  }

  lemma {:induction false} StrLeTotal(a: string, b: string)
    ensures StrLe(a, b) || StrLe(b, a)
    decreases |a|
  {
    if a != [] && b != [] && a[0] == b[0] {
      StrLeTotal(a[1..], b[1..]);
    }
  }

  lemma {:induction false} StrLeAntisymmetric(a: string, b: string)
    requires StrLe(a, b) && StrLe(b, a)
    ensures a == b
    decreases |a|
  {
    if a != [] && b != [] {
      StrLeAntisymmetric(a[1..], b[1..]);
      assert a == [a[0]] + a[1..] && b == [b[0]] + b[1..];
    }
  }

  lemma {:induction false} StrLeTransitive(a: string, b: string, c: string)
    requires StrLe(a, b) && StrLe(b, c)
    ensures StrLe(a, c)
    decreases |a|
  {
    if a != [] && b != [] && c != [] && a[0] == b[0] == c[0] {
      StrLeTransitive(a[1..], b[1..], c[1..]);
    }
  }

  predicate Least(m: string, s: set<string>) {
    m in s && forall y | y in s :: StrLe(m, y)
  }

  lemma {:induction false} LeastExists(s: set<string>) returns (m: string)
    requires s != {}
    ensures Least(m, s)
    decreases |s|
  {
    var x :| x in s;
    StrLeTotal(x, x);
    if s == {x} {
      m := x;
    } else {
      var n := LeastExists(s - {x});
      StrLeTotal(x, n);
      m := if StrLe(x, n) then x else n;
      forall y | y in s ensures StrLe(m, y) {
        if y != x && m == x {
          StrLeTransitive(x, n, y);
        }
      }
    }
  }

  lemma LeastUnique(s: set<string>)
    ensures forall m, n | Least(m, s) && Least(n, s) :: m == n
  {
    forall m, n | Least(m, s) && Least(n, s) ensures m == n {
      StrLeAntisymmetric(m, n);
    }
  }

  /** Python's `sorted` on a collection of distinct strings. */
  function SortedKeys(s: set<string>): (r: seq<string>)
    ensures |r| == |s|
    ensures forall x :: x in r <==> x in s
    ensures forall i, j | 0 <= i < j < |r| :: r[i] != r[j] && StrLe(r[i], r[j])
    decreases |s|
  {
    if s == {} then
      []
    else
      assert exists m :: Least(m, s) by { var m := LeastExists(s); }
      LeastUnique(s);
      var m: string :| m in s && Least(m, s);
      [m] + SortedKeys(s - {m})
  }

  // ---- str(int) ------------------------------------------------------------------------------

  function Digits(n: nat): (r: string)
    ensures r != [] && forall c <- r :: '0' <= c <= '9'
  {
    if n < 10 then ['0' + n as char] else Digits(n / 10) + ['0' + (n % 10) as char]
  }

  function IntText(i: int): string {
    if i < 0 then "-" + Digits(-i) else Digits(i)
  }

  lemma {:induction false} DigitsInjective(m: nat, n: nat)
    requires Digits(m) == Digits(n)
    ensures m == n
  {
    var a, b := Digits(m), Digits(n);
    assert a[|a| - 1] == '0' + (m % 10) as char && b[|b| - 1] == '0' + (n % 10) as char;
    assert m % 10 == n % 10;
    if m >= 10 && n >= 10 {
      assert a[..|a| - 1] == Digits(m / 10) && b[..|b| - 1] == Digits(n / 10);
      DigitsInjective(m / 10, n / 10);
    }
  }

  lemma IntTextInjective(i: int, j: int)
    requires IntText(i) == IntText(j)
    ensures i == j
  {
    assert i < 0 ==> IntText(i)[0] == '-' && IntText(i)[1..] == Digits(-i);
    assert j < 0 ==> IntText(j)[0] == '-' && IntText(j)[1..] == Digits(-j);
    assert i >= 0 ==> IntText(i)[0] in IntText(i);
    assert j >= 0 ==> IntText(j)[0] in IntText(j);
    if i < 0 {
      DigitsInjective(-i, -j);
    } else {
      DigitsInjective(i, j);
    }
  }

  // ---- casefold ------------------------------------------------------------------------------

  function FoldChar(c: char): char {
    if 'A' <= c <= 'Z' then c + 32 as char else c
  }

  function Fold(s: string): string {
    seq(|s|, i requires 0 <= i < |s| => FoldChar(s[i]))
  }

  lemma FoldIdempotent(s: string)
    ensures Fold(Fold(s)) == Fold(s)
  {
  }

  lemma FoldConcat(a: string, b: string)
    ensures Fold(a + b) == Fold(a) + Fold(b)
  {
  }

  lemma FoldKeepsAt(s: string)
    ensures '@' in Fold(s) <==> '@' in s
  {
    if '@' in s {
      var i :| 0 <= i < |s| && s[i] == '@';
      assert Fold(s)[i] == '@';
    }
    if '@' in Fold(s) {
      var i :| 0 <= i < |s| && Fold(s)[i] == '@';
      assert s[i] == '@';
    }
  }

  // ---- rsplit("@", 1) ------------------------------------------------------------------------

  function LastAt(s: string): (p: nat)
    requires '@' in s
    ensures p < |s| && s[p] == '@' && '@' !in s[p + 1..]
  {
    if s[|s| - 1] == '@' then |s| - 1
    else
      assert s == s[..|s| - 1] + [s[|s| - 1]];
      var p := LastAt(s[..|s| - 1]);
      assert s[p + 1..] == s[..|s| - 1][p + 1..] + [s[|s| - 1]];
      p
  }

  /** The two halves around the last '@'. */
  function RSplitAt(s: string): (string, string)
    requires '@' in s
  {
    (s[..LastAt(s)], s[LastAt(s) + 1..])
  }

  lemma RSplitJoin(u: string, e: string)
    requires '@' !in e
    ensures '@' in u + "@" + e && RSplitAt(u + "@" + e) == (u, e)
  {
    var s := u + "@" + e;
    assert s[|u|] == '@';
    var p := LastAt(s);
    assert s[..|u|] == u && s[|u| + 1..] == e;
  }
}
