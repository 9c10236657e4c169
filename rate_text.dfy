/**
  The clean-up the Banco Central scraper applies to the published dollar
  rate before it is parsed as a number (app.py:58): strip surrounding
  whitespace, drop every `$`, drop every `.` (the thousands separator),
  then turn every `,` (the decimal comma) into `.`.
*/
module RateText {

  /** The characters Python's `str.isspace` accepts, which `str.strip()` removes. */
  predicate IsSpace(c: char)
  {
    || '\t' <= c <= '\r'
    || '\U{1C}' <= c <= ' '
    || c == '\U{85}' || c == '\U{A0}' || c == '\U{1680}'
    || '\U{2000}' <= c <= '\U{200A}'
    || c == '\U{2028}' || c == '\U{2029}' || c == '\U{202F}' || c == '\U{205F}' || c == '\U{3000}'
  }

  /** Drops the leading whitespace. */
  function StripLeft(s: string): string
  {
    if s == [] || !IsSpace(s[0]) then s else StripLeft(s[1..])
  }

  /** Drops the trailing whitespace. */
  function StripRight(s: string): string
  {
    if s == [] || !IsSpace(s[|s| - 1]) then s else StripRight(s[..|s| - 1])
  }

  /** Python's `str.strip()` with no argument. */
  function Strip(s: string): string
  {
    StripRight(StripLeft(s))
  }

  /** Every character of `w` is whitespace. */
  predicate AllSpace(w: string)
  {
    forall i :: 0 <= i < |w| ==> IsSpace(w[i])
  }

  /** What is left is a suffix that does not start with whitespace, and only whitespace went. */
  lemma {:induction false} StripLeftSpec(s: string)
    ensures |StripLeft(s)| <= |s|
    ensures var n := |s| - |StripLeft(s)|;
      StripLeft(s) == s[n..] && AllSpace(s[..n])
    ensures StripLeft(s) == [] || !IsSpace(StripLeft(s)[0])
  {
    if s != [] && IsSpace(s[0]) {
      StripLeftSpec(s[1..]);
      var m := |s| - 1 - |StripLeft(s[1..])|;
      assert s[1..][m..] == s[m + 1..];
      var front := s[..m + 1];
      forall i | 0 <= i < |front|
        ensures IsSpace(front[i])
      {
        if i == 0 {
          assert front[0] == s[0];
        } else {
          var rest := s[1..][..m];
          assert AllSpace(rest);
          assert front[i] == rest[i - 1];
          assert IsSpace(rest[i - 1]);
        }
      }
    }
  }

  /** What is left is a prefix that does not end in whitespace, and only whitespace went. */
  lemma {:induction false} StripRightSpec(s: string)
    ensures |StripRight(s)| <= |s|
    ensures var n := |StripRight(s)|;
      StripRight(s) == s[..n] && AllSpace(s[n..])
    ensures StripRight(s) == [] || !IsSpace(StripRight(s)[|StripRight(s)| - 1])
  {
    if s != [] && IsSpace(s[|s| - 1]) {
      var t := s[..|s| - 1];
      StripRightSpec(t);
      var n := |StripRight(t)|;
      assert t[..n] == s[..n];
      var back := s[n..];
      forall i | 0 <= i < |back|
        ensures IsSpace(back[i])
      {
        if i < |back| - 1 {
          var rest := t[n..];
          assert AllSpace(rest);
          assert back[i] == rest[i];
          assert IsSpace(rest[i]);
        } else {
          assert back[i] == s[|s| - 1];
        }
      }
    }
  }

  /** Removing only whitespace from both ends keeps every other character, as often as before. */
  lemma {:induction false} StripKeepsText(s: string)
    ensures var r := Strip(s);
      (r == [] || (!IsSpace(r[0]) && !IsSpace(r[|r| - 1]))) &&
      forall c :: !IsSpace(c) ==> multiset(r)[c] == multiset(s)[c]
  {
    var l := StripLeft(s);
    var r := StripRight(l);
    StripLeftSpec(s);
    StripRightSpec(l);
    assert r != [] ==> r[0] == l[0];
    Framed(s, l, r, |s| - |l|, |r|);
  }

  /** Taking whitespace off either end of a text changes no other character's count. */
  lemma {:induction false} Framed(s: string, l: string, r: string, n: nat, k: nat)
    requires n <= |s| && l == s[n..] && AllSpace(s[..n])
    requires k <= |l| && r == l[..k] && AllSpace(l[k..])
    ensures forall c :: !IsSpace(c) ==> multiset(r)[c] == multiset(s)[c]
  {
    SplitAt(s, n);
    SplitAt(l, k);
    SpaceAround(s, s[..n], l, r, l[k..]);
  }

  /** A text is its prefix followed by the rest. */
  lemma SplitAt(s: string, k: nat)
    requires k <= |s|
    ensures s == s[..k] + s[k..]
  {
  }

  /** The counting argument of `Framed`. */
  lemma {:induction false} SpaceAround(s: string, front: string, l: string, r: string, back: string)
    requires s == front + l && l == r + back
    requires AllSpace(front) && AllSpace(back)
    ensures forall c :: !IsSpace(c) ==> multiset(r)[c] == multiset(s)[c]
  {
    forall c | !IsSpace(c)
      ensures multiset(r)[c] == multiset(s)[c]
    {
      NoSpaceCount(front, c);
      NoSpaceCount(back, c);
    }
  }

  /** A run of whitespace holds no other character. */
  lemma {:induction false} NoSpaceCount(w: string, c: char)
    requires AllSpace(w)
    requires !IsSpace(c)
    ensures multiset(w)[c] == 0
  {
    assert c !in w;
  }

  /** Python's `s.replace(x, "")`. */
  function Remove(s: string, x: char): string
  {
    if s == [] then []
    else (if s[0] == x then [] else [s[0]]) + Remove(s[1..], x)
  }

  /** Every `x` is deleted and every other character is kept, as often as before. */
  lemma {:induction false} RemoveCounts(s: string, x: char)
    ensures multiset(Remove(s, x)) == multiset(s)[x := 0]
  {
    if s != [] {
      RemoveCounts(s[1..], x);
      assert s == [s[0]] + s[1..];
    }
  }

  /** Removal works piece by piece, so the kept characters stay in their order. */
  lemma {:induction false} RemoveAppend(a: string, b: string, x: char)
    ensures Remove(a + b, x) == Remove(a, x) + Remove(b, x)
  {
    if a != [] {
      var head := if a[0] == x then [] else [a[0]];
      calc {
        Remove(a + b, x);
        { assert (a + b)[0] == a[0] && (a + b)[1..] == a[1..] + b; }
        head + Remove(a[1..] + b, x);
        { RemoveAppend(a[1..], b, x); }
        head + (Remove(a[1..], x) + Remove(b, x));
        (head + Remove(a[1..], x)) + Remove(b, x);
      }
    } else {
      assert a + b == b;
    }
  }

  /** Python's `s.replace(x, y)` for single characters. */
  function Swap(s: string, x: char, y: char): string
  {
    if s == [] then []
    else [if s[0] == x then y else s[0]] + Swap(s[1..], x, y)
  }

  /** Each `x` becomes `y` in its place; nothing else moves or changes. */
  lemma {:induction false} SwapAt(s: string, x: char, y: char)
    ensures |Swap(s, x, y)| == |s|
    ensures forall i :: 0 <= i < |s| ==> Swap(s, x, y)[i] == (if s[i] == x then y else s[i])
  {
    if s != [] {
      SwapAt(s[1..], x, y);
      var t := Swap(s[1..], x, y);
      forall i | 1 <= i < |s|
        ensures Swap(s, x, y)[i] == t[i - 1]
      {
      }
    }
  }

  /** After the swap no `x` is left, every `x` counts as a `y`, and other characters keep their counts. */
  lemma {:induction false} SwapCounts(s: string, x: char, y: char)
    requires x != y
    ensures var r := Swap(s, x, y);
      multiset(r)[x] == 0 &&
      multiset(r)[y] == multiset(s)[y] + multiset(s)[x] &&
      forall c :: c != x && c != y ==> multiset(r)[c] == multiset(s)[c]
  {
    if s != [] {
      SwapCounts(s[1..], x, y);
      var h := if s[0] == x then y else s[0];
      assert multiset(s) == multiset{s[0]} + multiset(s[1..]) by {
        assert s == [s[0]] + s[1..];
      }
      assert multiset(Swap(s, x, y)) == multiset{h} + multiset(Swap(s[1..], x, y));
    }
  }

  /** The text handed to `float(...)`. */
  function Normalise(s: string): string
  {
    Swap(Remove(Remove(Strip(s), '$'), '.'), ',', '.')
  }

  /**
    No `$` and no `,` survive; every `.` of the result is a former `,` of
    the text, so the two counts agree; any other character that is not
    whitespace appears exactly as often as in the text.
  */
  lemma {:induction false} NormaliseCounts(s: string)
    ensures var r := Normalise(s);
      '$' !in r && ',' !in r &&
      multiset(r)['.'] == multiset(s)[','] &&
      forall c :: c != '$' && c != '.' && c != ',' && !IsSpace(c) ==> multiset(r)[c] == multiset(s)[c]
  {
    var t := Strip(s);
    var u := Remove(t, '$');
    var v := Remove(u, '.');
    StripKeepsText(s);
    RemoveCounts(t, '$');
    RemoveCounts(u, '.');
    SwapCounts(v, ',', '.');
    CountsThroughStages(s, t, u, v, Swap(v, ',', '.'));
  }

  /** The counting argument of `NormaliseCounts`, stage by stage. */
  lemma {:induction false} CountsThroughStages(s: string, t: string, u: string, v: string, r: string)
    requires forall c :: !IsSpace(c) ==> multiset(t)[c] == multiset(s)[c]
    requires multiset(u) == multiset(t)['$' := 0]
    requires multiset(v) == multiset(u)['.' := 0]
    requires multiset(r)[','] == 0 && multiset(r)['.'] == multiset(v)['.'] + multiset(v)[',']
    requires forall c :: c != ',' && c != '.' ==> multiset(r)[c] == multiset(v)[c]
    ensures '$' !in r && ',' !in r
    ensures multiset(r)['.'] == multiset(s)[',']
    ensures forall c :: c != '$' && c != '.' && c != ',' && !IsSpace(c) ==> multiset(r)[c] == multiset(s)[c]
  {
    assert multiset(r)['$'] == multiset(v)['$'] == multiset(u)['$'] == 0;
    assert !IsSpace(',');
  }

  /** Text with no whitespace, no `$`, no `.` and no `,`: the digit groups of a published rate. */
  predicate Plain(s: string)
  {
    forall i :: 0 <= i < |s| ==> !IsSpace(s[i]) && s[i] != '$' && s[i] != '.' && s[i] != ','
  }

  /** Text that neither starts nor ends with whitespace is left alone by the strip. */
  lemma {:induction false} StripUntrimmed(s: string)
    requires s == [] || (!IsSpace(s[0]) && !IsSpace(s[|s| - 1]))
    ensures Strip(s) == s
  {
  }

  /** Removing a character the text does not hold changes nothing. */
  lemma {:induction false} RemoveAbsent(s: string, x: char)
    requires x !in s
    ensures Remove(s, x) == s
  {
    if s != [] {
      assert s == [s[0]] + s[1..];
      RemoveAbsent(s[1..], x);
    }
  }

  /** Swapping works piece by piece, like removal. */
  lemma {:induction false} SwapAppend(a: string, b: string, x: char, y: char)
    ensures Swap(a + b, x, y) == Swap(a, x, y) + Swap(b, x, y)
  {
    if a != [] {
      var head := [if a[0] == x then y else a[0]];
      calc {
        Swap(a + b, x, y);
        { assert (a + b)[0] == a[0] && (a + b)[1..] == a[1..] + b; }
        head + Swap(a[1..] + b, x, y);
        { SwapAppend(a[1..], b, x, y); }
        head + (Swap(a[1..], x, y) + Swap(b, x, y));
        (head + Swap(a[1..], x, y)) + Swap(b, x, y);
      }
    } else {
      assert a + b == b;
    }
  }

  /** Swapping a character the text does not hold changes nothing. */
  lemma {:induction false} SwapAbsent(s: string, x: char, y: char)
    requires x !in s
    ensures Swap(s, x, y) == s
  {
    if s != [] {
      assert s == [s[0]] + s[1..];
      SwapAbsent(s[1..], x, y);
    }
  }

  /** The thousands point between two digit groups goes; the rest stays in order. */
  lemma {:induction false} DropThousandsPoint(a: string, b: string, c: string)
    requires '.' !in a && '.' !in b && '.' !in c
    ensures Remove(a + "." + b + "," + c, '.') == a + b + "," + c
  {
    calc {
      Remove(a + "." + b + "," + c, '.');
      { RemoveAppend(a + "." + b + ",", c, '.'); RemoveAbsent(c, '.'); }
      Remove(a + "." + b + ",", '.') + c;
      { RemoveAppend(a + "." + b, ",", '.'); assert Remove(",", '.') == ","; }
      Remove(a + "." + b, '.') + "," + c;
      { RemoveAppend(a + ".", b, '.'); RemoveAbsent(b, '.'); }
      Remove(a + ".", '.') + b + "," + c;
      { RemoveAppend(a, ".", '.'); RemoveAbsent(a, '.'); assert Remove(".", '.') == []; assert a + [] == a; }
      a + b + "," + c;
    }
  }

  /** The decimal comma becomes a decimal point in place. */
  lemma {:induction false} DecimalCommaToPoint(p: string, c: string)
    requires ',' !in p && ',' !in c
    ensures Swap(p + "," + c, ',', '.') == p + "." + c
  {
    calc {
      Swap(p + "," + c, ',', '.');
      { SwapAppend(p + ",", c, ',', '.'); SwapAbsent(c, ',', '.'); }
      Swap(p + ",", ',', '.') + c;
      { SwapAppend(p, ",", ',', '.'); SwapAbsent(p, ',', '.'); assert Swap(",", ',', '.') == "."; }
      p + "." + c;
    }
  }

  /**
    A rate written with a thousands point and a decimal comma, such as
    `1.234,56`, comes out as `1234.56`: the point goes, the comma becomes
    the decimal point, and the digit groups are kept in order.
  */
  lemma {:induction false} ThousandsAndDecimalComma(a: string, b: string, c: string)
    requires Plain(a) && Plain(b) && Plain(c)
    ensures Normalise(a + "." + b + "," + c) == a + b + "." + c
  {
    var w := a + "." + b + "," + c;
    assert '$' !in a && '$' !in b && '$' !in c;
    assert '.' !in a && '.' !in b && '.' !in c;
    assert ',' !in a + b && ',' !in c;
    assert w[0] == (if a == [] then '.' else a[0]);
    assert w[|w| - 1] == (if c == [] then ',' else c[|c| - 1]);
    StripUntrimmed(w);
    RemoveAbsent(w, '$');
    DropThousandsPoint(a, b, c);
    DecimalCommaToPoint(a + b, c);
    Stages(w, a + b + "," + c, a + b + "." + c);
  }

  /** The four stages of `Normalise`, one equation each. */
  lemma {:induction false} Stages(w: string, v: string, r: string)
    requires Strip(w) == w && Remove(w, '$') == w
    requires Remove(w, '.') == v && Swap(v, ',', '.') == r
    ensures Normalise(w) == r
  {
  }
}
