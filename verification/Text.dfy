/** strings.TrimSpace and the blank filter both fan-out paths use. */
module Text {
  /** Unicode White_Space. */
  predicate IsSpace(ch: char) {
    var n := ch as int;
    || 0x09 <= n <= 0x0D || n == 0x20 || n == 0x85 || n == 0xA0 || n == 0x1680 || 0x2000 <= n <= 0x200A
    || n == 0x2028 || n == 0x2029 || n == 0x202F || n == 0x205F || n == 0x3000
  }

  /** In ASCII that is the blank, the tab and the four line controls. */
  lemma AsciiSpace(ch: char)
    requires ch as int < 0x80
    ensures IsSpace(ch) <==> ch == ' ' || ch == '\t' || ch == '\n' || ch == '\r' || ch as int == 0x0B || ch as int == 0x0C
  {
    assert ' ' as int == 32 && '\t' as int == 9 && '\n' as int == 10 && '\r' as int == 13;
  }

  predicate AllSpace(s: string) {
    forall i :: 0 <= i < |s| ==> IsSpace(s[i])
  }

  function TrimLeft(s: string): (t: string)
    ensures t == [] || !IsSpace(t[0])
  {
    if s == [] || !IsSpace(s[0]) then s else TrimLeft(s[1..])
  }

  function TrimRight(s: string): (t: string)
    ensures t <= s
    ensures t == [] || !IsSpace(t[|t| - 1])
  {
    if s == [] || !IsSpace(s[|s| - 1]) then s else TrimRight(s[..|s| - 1])
  }

  function TrimSpace(s: string): (t: string)
    ensures t == [] || (!IsSpace(t[0]) && !IsSpace(t[|t| - 1]))
  {
    TrimRight(TrimLeft(s))
  }

  lemma {:induction false} LeftPad(s: string) returns (a: string)
    ensures s == a + TrimLeft(s) && AllSpace(a)
  {
    hide IsSpace;
    if s == [] || !IsSpace(s[0]) {
      a := [];
    } else {
      var b := LeftPad(s[1..]);
      a := [s[0]] + b;
      assert s == [s[0]] + s[1..];
    }
  }

  lemma {:induction false} RightPad(s: string) returns (b: string)
    ensures s == TrimRight(s) + b && AllSpace(b)
  {
    hide IsSpace;
    if s == [] || !IsSpace(s[|s| - 1]) {
      b := [];
    } else {
      var a := RightPad(s[..|s| - 1]);
      b := a + [s[|s| - 1]];
      assert s == s[..|s| - 1] + [s[|s| - 1]];
    }
  }

  /** Trimming takes white space off both ends, all of it and nothing else, and there is one way to do so. */
  lemma TrimSpaceExactly(s: string, t: string)
    ensures TrimSpace(s) == t <==>
            (t == [] || (!IsSpace(t[0]) && !IsSpace(t[|t| - 1]))) && exists a, b :: Padded(s, a, t, b)
  {
    hide IsSpace, AllSpace, TrimSpace, TrimLeft, TrimRight;
    var a0, b0 := TrimPads(s);
    if t == [] || (!IsSpace(t[0]) && !IsSpace(t[|t| - 1])) {
      forall a, b | Padded(s, a, t, b) ensures t == TrimSpace(s) {
        OneTrim(a, t, b, a0, TrimSpace(s), b0);
      }
    }
  }

  lemma TrimPads(s: string) returns (a: string, b: string)
    ensures Padded(s, a, TrimSpace(s), b)
  {
    hide IsSpace, AllSpace, TrimLeft, TrimRight;
    a := LeftPad(s);
    b := RightPad(TrimLeft(s));
  }

  /** s is t with white space a in front and b behind. */
  predicate Padded(s: string, a: string, t: string, b: string) {
    s == a + t + b && AllSpace(a) && AllSpace(b)
  }

  lemma OneTrim(a: string, t: string, b: string, a': string, t': string, b': string)
    requires a + t + b == a' + t' + b' && AllSpace(a) && AllSpace(b) && AllSpace(a') && AllSpace(b')
    requires t == [] || (!IsSpace(t[0]) && !IsSpace(t[|t| - 1]))
    requires t' == [] || (!IsSpace(t'[0]) && !IsSpace(t'[|t'| - 1]))
    ensures t == t'
  {
    if t != [] {
      TrimSides(a, t, b, a', t', b');
    } else if t' != [] {
      TrimSides(a', t', b', a, t, b);
    }
  }

  lemma TrimSides(a: string, t: string, b: string, a': string, t': string, b': string)
    requires a + t + b == a' + t' + b' && AllSpace(a) && AllSpace(b) && AllSpace(a') && AllSpace(b')
    requires t != [] && !IsSpace(t[0]) && !IsSpace(t[|t| - 1])
    requires t' == [] || (!IsSpace(t'[0]) && !IsSpace(t'[|t'| - 1]))
    ensures t == t'
  {
    var s := a + t + b;
    var first, last := |a|, |a| + |t| - 1;
    assert s[first] == t[0] && s[last] == t[|t| - 1];
    assert !AllSpace(s);
    assert t' == [] ==> AllSpace(a' + t' + b');
    var first', last' := |a'|, |a'| + |t'| - 1;
    assert s[first'] == t'[0] && s[last'] == t'[|t'| - 1];
    assert forall i :: 0 <= i < |a| ==> s[i] == a[i];
    assert forall i :: 0 <= i < |a'| ==> s[i] == a'[i];
    assert forall i :: last < i < |s| ==> s[i] == b[i - last - 1];
    assert forall i :: last' < i < |s| ==> s[i] == b'[i - last' - 1];
    assert first == first' && last == last';
    assert t == s[first..last + 1] == t';
  }

  /** The trimmed entries that are not blank, in order. */
  function NonBlank(xs: seq<string>): (ys: seq<string>)
    ensures forall y | y in ys :: y != ""
  {
    if xs == [] then []
    else
      var t := TrimSpace(xs[|xs| - 1]);
      NonBlank(xs[..|xs| - 1]) + (if t != "" then [t] else [])
  }

  /**
   The blank filter exactly: an entry is kept, trimmed, if and only if it is not blank, and it comes after as
   many as were kept before it.
   */
  lemma {:induction false} NonBlankExactly(xs: seq<string>, k: nat)
    requires k < |xs|
    ensures |NonBlank(xs[..k + 1])| == |NonBlank(xs[..k])| + (if TrimSpace(xs[k]) != "" then 1 else 0)
    ensures NonBlank(xs[..k + 1]) <= NonBlank(xs)
    ensures TrimSpace(xs[k]) != "" ==>
              |NonBlank(xs[..k])| < |NonBlank(xs)| && NonBlank(xs)[|NonBlank(xs[..k])|] == TrimSpace(xs[k])
    ensures NonBlank([]) == []
  {
    hide TrimSpace;
    assert xs[..k + 1][..k] == xs[..k];
    if k + 1 < |xs| {
      var front := xs[..|xs| - 1];
      NonBlankExactly(front, k);
      assert front[..k] == xs[..k] && front[..k + 1] == xs[..k + 1];
    } else {
      assert xs[..k + 1] == xs;
    }
  }

  /** A user is among the kept entries if and only if some entry trims to it and it is not blank. */
  lemma {:induction false} NonBlankIn(xs: seq<string>, u: string)
    ensures u in NonBlank(xs) <==> u != "" && exists k :: 0 <= k < |xs| && TrimSpace(xs[k]) == u
  {
    hide TrimSpace;
    if xs != [] {
      var n := |xs| - 1;
      NonBlankIn(xs[..n], u);
      assert forall k :: 0 <= k < n ==> xs[..n][k] == xs[k];
    }
  }

  /** Each distinct entry once, at its first occurrence. */
  function FirstOccurrences(xs: seq<string>): seq<string> {
    if xs == [] then []
    else
      var front := FirstOccurrences(xs[..|xs| - 1]);
      var x := xs[|xs| - 1];
      if x in front then front else front + [x]
  }

  function IndexOf(xs: seq<string>, x: string): (i: nat)
    requires x in xs
    ensures i < |xs| && xs[i] == x && x !in xs[..i]
  {
    if xs[0] == x then 0 else 1 + IndexOf(xs[1..], x)
  }

  lemma {:induction false} FirstIndexUnique(xs: seq<string>, x: string, i: nat)
    requires i < |xs| && xs[i] == x && x !in xs[..i]
    ensures IndexOf(xs, x) == i
  {
    if i > 0 {
      assert xs[0] in xs[..i];
      assert xs[1..][..i - 1] == xs[..i][1..];
      FirstIndexUnique(xs[1..], x, i - 1);
    }
  }

  /** The list has the entries of xs, none twice, ordered by where each first occurs in xs. */
  lemma {:induction false} FirstOccurrencesSpec(xs: seq<string>)
    ensures forall x :: x in FirstOccurrences(xs) <==> x in xs
    ensures forall i, j :: 0 <= i < j < |FirstOccurrences(xs)| ==>
                             IndexOf(xs, FirstOccurrences(xs)[i]) < IndexOf(xs, FirstOccurrences(xs)[j])
  {
    if xs != [] {
      var n := |xs| - 1;
      var front := FirstOccurrences(xs[..n]);
      FirstOccurrencesSpec(xs[..n]);
      assert xs == xs[..n] + [xs[n]];
      forall x | x in xs[..n] ensures IndexOf(xs, x) == IndexOf(xs[..n], x) {
        var k := IndexOf(xs[..n], x);
        assert xs[..k] == xs[..n][..k];
        FirstIndexUnique(xs, x, k);
      }
      if xs[n] !in front {
        FirstIndexUnique(xs, xs[n], n);
      }
    }
  }

  lemma {:induction false} FirstOccurrencesDistinct(xs: seq<string>)
    ensures forall i, j :: 0 <= i < j < |FirstOccurrences(xs)| ==> FirstOccurrences(xs)[i] != FirstOccurrences(xs)[j]
  {
    if xs != [] {
      FirstOccurrencesDistinct(xs[..|xs| - 1]);
    }
  }
}
