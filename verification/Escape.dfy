/** xmlEscape, against the decoding of the five predefined entities in section 4.6 of XML 1.0. */
module Escape {
  import opened Wrappers

  function EscapeChar(ch: char): string {
    match ch
    case '&' => "&amp;"
    case '<' => "&lt;"
    case '>' => "&gt;"
    case '"' => "&quot;"
    case '\'' => "&apos;"
    case _ => [ch]
  }

  /** One pass that replaces each special character. */
  function XmlEscape(s: string): string {
    if s == [] then [] else EscapeChar(s[0]) + XmlEscape(s[1..])
  }

  /** Resolves entity references; None when an ampersand does not start one of the five. */
  function Unescape(t: string): Option<string>
    decreases |t|
  {
    if t == [] then Some([])
    else if t[0] != '&' then Cons(t[0], Unescape(t[1..]))
    else if "&amp;" <= t then Cons('&', Unescape(t[5..]))
    else if "&lt;" <= t then Cons('<', Unescape(t[4..]))
    else if "&gt;" <= t then Cons('>', Unescape(t[4..]))
    else if "&quot;" <= t then Cons('"', Unescape(t[6..]))
    else if "&apos;" <= t then Cons('\'', Unescape(t[6..]))
    else None
  }

  function Cons(ch: char, rest: Option<string>): Option<string> {
    if rest.None? then None else Some([ch] + rest.value)
  }

  /** No raw angle bracket or quote. */
  predicate Clean(t: string) {
    forall ch | ch in t :: ch != '<' && ch != '>' && ch != '"' && ch != '\''
  }

  lemma UnescapeOne(ch: char, rest: string)
    ensures Unescape(EscapeChar(ch) + rest) == Cons(ch, Unescape(rest))
  {
    var t := EscapeChar(ch) + rest;
    assert t[|EscapeChar(ch)|..] == rest;
    if ch != '&' && ch != '<' && ch != '>' && ch != '"' && ch != '\'' {
      assert t[0] == ch;
    } else {
      assert EscapeChar(ch) <= t;
      assert t[1] == EscapeChar(ch)[1] && t[2] == EscapeChar(ch)[2];
    }
  }

  lemma CleanConcat(a: string, b: string)
    requires Clean(a) && Clean(b)
    ensures Clean(a + b)
  {
  }

  lemma CleanChar(ch: char)
    ensures Clean(EscapeChar(ch)) && Clean([])
  {
  }

  /** Decoding undoes escaping, and what was escaped has no raw bracket or quote. */
  lemma {:induction false} RoundTrip(s: string)
    ensures Unescape(XmlEscape(s)) == Some(s) && Clean(XmlEscape(s))
  {
    hide Unescape, Clean;
    EmptyText([], s);
    CleanChar('&');
    if s != [] {
      RoundTrip(s[1..]);
      CleanChar(s[0]);
      CleanConcat(EscapeChar(s[0]), XmlEscape(s[1..]));
      UnescapeOne(s[0], XmlEscape(s[1..]));
      assert [s[0]] + s[1..] == s;
    }
  }

  lemma Injective(a: string, b: string)
    ensures XmlEscape(a) == XmlEscape(b) <==> a == b
  {
    RoundTrip(a);
    RoundTrip(b);
  }

  lemma Recombine(e: string, t: string, ch: char, s: string)
    requires e <= t && e == EscapeChar(ch) && t[|e|..] == XmlEscape(s)
    ensures t == XmlEscape([ch] + s)
  {
    assert ([ch] + s)[1..] == s;
    assert t == e + t[|e|..];
  }

  /** The image exactly: a text free of raw brackets and quotes that decodes to s is the escape of s. */
  lemma {:induction false} OnlyEscape(t: string, s: string)
    ensures Unescape(t) == Some(s) && Clean(t) <==> t == XmlEscape(s)
    decreases |t|
  {
    hide Unescape, Clean;
    EmptyText(t, s);
    if t == XmlEscape(s) {
      RoundTrip(s);
    }
    if Unescape(t) == Some(s) && Clean(t) && t != [] {
      var n, ch := EntityAt(t);
      OnlyEscape(t[n..], s[1..]);
      CleanTail(t, n);
      Recombine(t[..n], t, ch, s[1..]);
      assert [ch] + s[1..] == s;
    }
  }

  lemma EmptyText(t: string, s: string)
    ensures t == [] ==> (Unescape(t) == Some(s) <==> s == [])
    ensures s == [] ==> XmlEscape(s) == []
    ensures forall ch, r :: Cons(ch, r) == Some(s) ==> s != [] && s[0] == ch && r == Some(s[1..])
  {
  }

  lemma CleanTail(t: string, n: nat)
    requires Clean(t) && n <= |t|
    ensures Clean(t[n..])
  {
    forall ch | ch in t[n..] ensures ch in t {
    }
  }

  /** What the decoder reads first: n characters standing for ch. */
  lemma EntityAt(t: string) returns (n: nat, ch: char)
    requires t != [] && Unescape(t).Some? && Clean(t)
    ensures 1 <= n <= |t| && t[..n] == EscapeChar(ch) && Unescape(t) == Cons(ch, Unescape(t[n..]))
  {
    if t[0] != '&' {
      n, ch := 1, t[0];
      assert t[0] in t;
    } else if "&amp;" <= t {
      n, ch := 5, '&';
    } else if "&lt;" <= t {
      n, ch := 4, '<';
    } else if "&gt;" <= t {
      n, ch := 4, '>';
    } else if "&quot;" <= t {
      n, ch := 6, '"';
    } else {
      n, ch := 6, '\'';
    }
  }

  // ---- sequential replacement ------------------------------------------

  /** strings.ReplaceAll of a single character. */
  function Replace(s: string, old_: char, new_: string): string {
    if s == [] then [] else (if s[0] == old_ then new_ else [s[0]]) + Replace(s[1..], old_, new_)
  }

  lemma {:induction false} ReplaceConcat(a: string, b: string, old_: char, new_: string)
    ensures Replace(a + b, old_, new_) == Replace(a, old_, new_) + Replace(b, old_, new_)
  {
    if a == [] {
      assert a + b == b;
    } else {
      var head := if a[0] == old_ then new_ else [a[0]];
      var x, y := Replace(a[1..], old_, new_), Replace(b, old_, new_);
      ReplaceConcat(a[1..], b, old_, new_);
      assert (a + b)[1..] == a[1..] + b;
      assert head + (x + y) == (head + x) + y;
    }
  }

  lemma {:induction false} ReplaceAbsent(s: string, old_: char, new_: string)
    requires old_ !in s
    ensures Replace(s, old_, new_) == s
  {
    if s != [] {
      ReplaceAbsent(s[1..], old_, new_);
    }
  }

  /** Five passes, the ampersand first. */
  function FivePasses(s: string): string {
    Replace(Replace(Replace(Replace(Replace(s, '&', "&amp;"), '<', "&lt;"), '>', "&gt;"), '"', "&quot;"), '\'', "&apos;")
  }

  lemma FivePassesConcat(a: string, b: string)
    ensures FivePasses(a + b) == FivePasses(a) + FivePasses(b)
  {
    ReplaceConcat(a, b, '&', "&amp;");
    var a1, b1 := Replace(a, '&', "&amp;"), Replace(b, '&', "&amp;");
    ReplaceConcat(a1, b1, '<', "&lt;");
    var a2, b2 := Replace(a1, '<', "&lt;"), Replace(b1, '<', "&lt;");
    ReplaceConcat(a2, b2, '>', "&gt;");
    var a3, b3 := Replace(a2, '>', "&gt;"), Replace(b2, '>', "&gt;");
    ReplaceConcat(a3, b3, '"', "&quot;");
    ReplaceConcat(Replace(a3, '"', "&quot;"), Replace(b3, '"', "&quot;"), '\'', "&apos;");
  }

  lemma ReplaceOne(ch: char, old_: char, new_: string)
    ensures Replace([ch], old_, new_) == if ch == old_ then new_ else [ch]
  {
    assert Replace([ch][1..], old_, new_) == [];
  }

  lemma Pass(x: string, ch: char, old_: char, new_: string)
    requires if ch == old_ then x == [ch] else old_ !in x
    ensures Replace(x, old_, new_) == if ch == old_ then new_ else x
  {
    ReplaceOne(ch, old_, new_);
    if ch != old_ {
      ReplaceAbsent(x, old_, new_);
    }
  }

  lemma FivePassesChar(ch: char)
    ensures FivePasses([ch]) == EscapeChar(ch)
  {
    hide Replace;
    Pass([ch], ch, '&', "&amp;");
    var x1 := if ch == '&' then "&amp;" else [ch];
    Pass(x1, ch, '<', "&lt;");
    var x2 := if ch == '<' then "&lt;" else x1;
    Pass(x2, ch, '>', "&gt;");
    var x3 := if ch == '>' then "&gt;" else x2;
    Pass(x3, ch, '"', "&quot;");
    var x4 := if ch == '"' then "&quot;" else x3;
    Pass(x4, ch, '\'', "&apos;");
  }

  /** The single pass equals five sequential replacements with the ampersand first. */
  lemma {:induction false} SinglePassIsFive(s: string)
    ensures XmlEscape(s) == FivePasses(s)
  {
    if s != [] {
      SinglePassIsFive(s[1..]);
      FivePassesConcat([s[0]], s[1..]);
      FivePassesChar(s[0]);
      assert [s[0]] + s[1..] == s;
    }
  }

  lemma {:induction false} EscapeConcat(a: string, b: string)
    ensures XmlEscape(a + b) == XmlEscape(a) + XmlEscape(b)
  {
    hide EscapeChar;
    if a == [] {
      assert a + b == b;
    } else {
      EscapeConcat(a[1..], b);
      assert (a + b)[1..] == a[1..] + b;
      var x, y, z := EscapeChar(a[0]), XmlEscape(a[1..]), XmlEscape(b);
      assert x + (y + z) == (x + y) + z;
    }
  }

  lemma EscapeSingle(ch: char)
    ensures XmlEscape([ch]) ==
            if ch == '&' then "&amp;" else if ch == '<' then "&lt;" else if ch == '>' then "&gt;"
            else if ch == '"' then "&quot;" else if ch == '\'' then "&apos;" else [ch]
    ensures XmlEscape("") == ""
  {
    assert [ch][1..] == [];
    assert XmlEscape([ch]) == EscapeChar(ch) + XmlEscape([]);
  }

  /** Wherever a character stands: the five become the predefined entities by name, every other one stays. */
  lemma EscapesInPlace(a: string, ch: char, b: string)
    ensures XmlEscape(a + [ch] + b) ==
            XmlEscape(a)
            + (if ch == '&' then "&amp;" else if ch == '<' then "&lt;" else if ch == '>' then "&gt;"
               else if ch == '"' then "&quot;" else if ch == '\'' then "&apos;" else [ch])
            + XmlEscape(b)
    ensures XmlEscape("") == ""
  {
    hide XmlEscape;
    EscapeConcat(a + [ch], b);
    EscapeConcat(a, [ch]);
    EscapeSingle(ch);
  }
}
