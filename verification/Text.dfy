/** The string operations the rest of the model rests on: white-space trimming,
    lower-casing and the byte-wise order of Go's `strings.Compare`. */
module Text {

  /** Unicode White_Space, the set trimmed by `strings.TrimSpace`. */
  predicate IsSpace(c: char) {
    || '\U{9}' <= c <= '\U{D}' || c == ' ' || c == '\U{85}' || c == '\U{A0}' || c == '\U{1680}'
    || '\U{2000}' <= c <= '\U{200A}' || c == '\U{2028}' || c == '\U{2029}' || c == '\U{202F}'
    || c == '\U{205F}' || c == '\U{3000}'
  }

  function TrimLeft(s: string): (t: string)
    ensures |t| <= |s| && t == s[|s| - |t|..]
    ensures t != "" ==> !IsSpace(t[0])
  {
    if s != "" && IsSpace(s[0]) then TrimLeft(s[1..]) else s
  }

  function TrimRight(s: string): (t: string)
    ensures |t| <= |s| && t == s[..|t|]
    ensures t != "" ==> !IsSpace(t[|t| - 1])
  {
    if s != "" && IsSpace(s[|s| - 1]) then TrimRight(s[..|s| - 1]) else s
  }

  function TrimSpace(s: string): string {
    TrimRight(TrimLeft(s))
  }

  /** Nothing is left after trimming (`BlankIsTrimmed`). */
  predicate Blank(s: string) {
    forall i :: 0 <= i < |s| ==> IsSpace(s[i])
  }

  lemma {:induction false} TrimLeftBlank(s: string)
    ensures TrimLeft(s) == "" <==> Blank(s)
  {
    if s != "" && IsSpace(s[0]) {
      var first, rest := s[..1], s[1..];
      assert s == first + rest && Blank(first);
      BlankConcat(first, rest);
      TrimLeftBlank(rest);
    }
  }

  lemma BlankConcat(a: string, b: string)
    ensures Blank(a + b) <==> Blank(a) && Blank(b)
  {
    assert forall i :: 0 <= i < |a| ==> (a + b)[i] == a[i];
    assert forall i :: 0 <= i < |b| ==> (a + b)[|a| + i] == b[i];
  }

  lemma {:induction false} TrimRightBlank(s: string)
    ensures TrimRight(s) == "" <==> Blank(s)
  {
    if s != "" && IsSpace(s[|s| - 1]) {
      var init, last := s[..|s| - 1], s[|s| - 1..];
      assert s == init + last && Blank(last);
      BlankConcat(init, last);
      TrimRightBlank(init);
    }
  }

  lemma BlankIsTrimmed(s: string)
    ensures Blank(s) <==> TrimSpace(s) == ""
  {
    TrimLeftBlank(s);
    TrimRightBlank(TrimLeft(s));
  }

  predicate TrimStable(s: string) {
    TrimSpace(s) == s
  }

  /** A string survives trimming exactly when neither end is white space. */
  lemma TrimStableEnds(s: string)
    ensures TrimStable(s) <==> s == "" || (!IsSpace(s[0]) && !IsSpace(s[|s| - 1]))
  {
    var left := TrimLeft(s);
    if s != "" && IsSpace(s[0]) {
      assert |left| < |s|;
    } else if s != "" && IsSpace(s[|s| - 1]) {
      assert |TrimRight(left)| < |s|;
    }
  }

  lemma TrimIdempotent(s: string)
    ensures TrimStable(TrimSpace(s))
  {
    var left := TrimLeft(s);
    var both := TrimRight(left);
    if both != "" {
      assert both[0] == left[0];
    }
    TrimStableEnds(both);
  }

  lemma {:induction false} TrimLeftSkips(a: string, rest: string)
    requires Blank(a)
    ensures TrimLeft(a + rest) == TrimLeft(rest)
  {
    if a == "" {
      assert a + rest == rest;
    } else {
      assert (a + rest)[1..] == a[1..] + rest;
      TrimLeftSkips(a[1..], rest);
    }
  }

  lemma {:induction false} TrimRightSkips(rest: string, b: string)
    requires Blank(b)
    ensures TrimRight(rest + b) == TrimRight(rest)
  {
    if b == "" {
      assert rest + b == rest;
    } else {
      assert (rest + b)[..|rest + b| - 1] == rest + b[..|b| - 1];
      TrimRightSkips(rest, b[..|b| - 1]);
    }
  }

  /** Trimming removes the outer white space and nothing else. */
  lemma TrimIs(a: string, core: string, b: string)
    requires Blank(a) && Blank(b) && (core == "" || (!IsSpace(core[0]) && !IsSpace(core[|core| - 1])))
    ensures TrimSpace(a + core + b) == core
  {
    assert a + core + b == a + (core + b);
    TrimLeftSkips(a, core + b);
    if core == "" {
      assert core + b == b;
      TrimLeftBlank(b);
    } else {
      assert TrimLeft(core + b) == core + b;
      TrimRightSkips(core, b);
    }
  }

  /** Lower-casing of one character. Besides A to Z, exactly two characters lower to ASCII: the dotted
      capital I and the Kelvin sign. Every other character keeps its class (ASCII or not), which is
      all that domain validation looks at, so it is left as it is. */
  function LowerChar(c: char): char {
    if 'A' <= c <= 'Z' then (c as int + 32) as char
    else if c == '\U{130}' then 'i'
    else if c == '\U{212A}' then 'k'
    else c
  }

  function ToLower(s: string): (t: string)
    ensures |t| == |s|
    ensures forall i :: 0 <= i < |s| ==> t[i] == LowerChar(s[i])
  {
    seq(|s|, i requires 0 <= i < |s| => LowerChar(s[i]))
  }

  function TrimSuffixDot(s: string): string {
    if s != "" && s[|s| - 1] == '.' then s[..|s| - 1] else s
  }

  /** `strings.Compare(a, b) < 0`. */
  predicate Less(a: string, b: string) {
    b != "" && (a == "" || a[0] < b[0] || (a[0] == b[0] && Less(a[1..], b[1..])))
  }

  /** The order is lexical: at the first difference the smaller character comes first, and a proper
      prefix comes before its extensions. */
  lemma {:induction false} LessIsLexical(a: string, b: string)
    ensures Less(a, b) <==>
            exists k :: 0 <= k <= |a| && k < |b| && a[..k] == b[..k] && (k == |a| || a[k] < b[k])
  {
    if a != "" && b != "" && a[0] == b[0] {
      LessIsLexical(a[1..], b[1..]);
      if k :| 0 <= k <= |a[1..]| && k < |b[1..]| && a[1..][..k] == b[1..][..k] && (k == |a[1..]| || a[1..][k] < b[1..][k]) {
        assert a[..k + 1] == [a[0]] + a[1..][..k] && b[..k + 1] == [b[0]] + b[1..][..k];
        assert a[..k + 1] == b[..k + 1];
      }
      if k :| 0 <= k <= |a| && k < |b| && a[..k] == b[..k] && (k == |a| || a[k] < b[k]) {
        assert k > 0;
        assert a[1..][..k - 1] == a[..k][1..] && b[1..][..k - 1] == b[..k][1..];
        assert a[1..][..k - 1] == b[1..][..k - 1];
      }
    } else if Less(a, b) {
      assert a[..0] == b[..0];
    } else {
      forall k | 0 <= k <= |a| && k < |b| && a[..k] == b[..k] ensures !(k == |a| || a[k] < b[k]) {}
    }
  }

  lemma LessAsymmetric(a: string, b: string)
    requires Less(a, b)
    ensures !Less(b, a)
  {
    if a != "" && a[0] == b[0] {
      LessAsymmetric(a[1..], b[1..]);
    }
  }

  lemma {:induction false} LessTransitive(a: string, b: string, c: string)
    requires Less(a, b) && Less(b, c)
    ensures Less(a, c)
  {
    if a != "" && a[0] == b[0] == c[0] {
      LessTransitive(a[1..], b[1..], c[1..]);
    }
  }

  lemma {:induction false} LessTotal(a: string, b: string)
    ensures a == b || Less(a, b) || Less(b, a)
  {
    if a != "" && b != "" && a[0] == b[0] {
      LessTotal(a[1..], b[1..]);
      assert a == [a[0]] + a[1..] && b == [b[0]] + b[1..];
    }
  }

  /** The form sorting needs: `Less` is a strict weak order whose ties are equalities. */
  lemma LessIsOrder(a: string, b: string, c: string)
    ensures Less(a, b) ==> !Less(b, a)
    ensures !Less(a, b) && !Less(b, c) ==> !Less(a, c)
    ensures !Less(a, b) && !Less(b, a) ==> a == b
  {
    if Less(a, b) { LessAsymmetric(a, b); }
    LessTotal(a, b);
    LessTotal(b, c);
    if Less(a, c) {
      if Less(c, b) { LessTransitive(a, c, b); }
      if Less(b, a) { LessTransitive(b, a, c); }
    }
  }
}
