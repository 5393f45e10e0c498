/** Properties of the text form of units. The rendering of an amount (Python's
    `%g`) is a parameter `fmt`; the lemmas only assume it writes no
    parentheses and no slash, which `%g` never does. */
module ReprLaws {
  import opened Catalog
  import opened Units

  /** How many times `ch` occurs in `s`. */
  function Occurrences(s: string, ch: char): nat
  {
    if s == [] then 0 else (if s[0] == ch then 1 else 0) + Occurrences(s[1..], ch)
  }

  /** The number of denominators present anywhere in a value. */
  function Denominators(v: Val): nat
    decreases Size(v)
  {
    match v
    case U(_) => 0
    case C(c) =>
      Denominators(c.num) + if c.den.Some? then 1 + Denominators(c.den.value) else 0
  }

  /** An amount renderer that writes neither parentheses nor a slash. */
  ghost predicate PlainFormat(fmt: real -> string)
  {
    forall x: real :: '(' !in fmt(x) && ')' !in fmt(x) && '/' !in fmt(x)
  }

  lemma {:induction false} OccurrencesConcat(s: string, t: string, ch: char)
    ensures Occurrences(s + t, ch) == Occurrences(s, ch) + Occurrences(t, ch)
  {
    if s != [] {
      assert (s + t)[1..] == s[1..] + t;
      OccurrencesConcat(s[1..], t, ch);
    } else {
      assert s + t == t;
    }
  }

  lemma {:induction false} OccurrencesAbsent(s: string, ch: char)
    requires ch !in s
    ensures Occurrences(s, ch) == 0
  {
    if s != [] {
      assert ch !in s[1..];
      OccurrencesAbsent(s[1..], ch);
    }
  }

  /** A scalar unit renders without parentheses or slash. */
  lemma UnitReprPlain(u: Unit, fmt: real -> string)
    requires PlainFormat(fmt)
    ensures Occurrences(UnitRepr(u, fmt), '(') == 0
    ensures Occurrences(UnitRepr(u, fmt), ')') == 0
    ensures Occurrences(UnitRepr(u, fmt), '/') == 0
  {
    var name := Name(u.kind);
    assert '(' !in name && ')' !in name && '/' !in name;
    var s := fmt(u.amount) + " " + name;
    assert '(' !in s && ')' !in s && '/' !in s;
    OccurrencesAbsent(s, '(');
    OccurrencesAbsent(s, ')');
    OccurrencesAbsent(s, '/');
  }

  /** The text of a scalar unit neither starts with `(` nor ends with `)`. */
  lemma UnitReprUnbracketed(u: Unit, fmt: real -> string)
    requires PlainFormat(fmt)
    ensures UnitRepr(u, fmt)[0] != '('
    ensures UnitRepr(u, fmt)[|UnitRepr(u, fmt)| - 1] != ')'
  {
    var r := UnitRepr(u, fmt);
    var f := fmt(u.amount);
    var name := Name(u.kind);
    if |f| > 0 {
      assert r[0] == f[0];
      assert f[0] in f;
    }
    assert r[|r| - 1] == name[|name| - 1];
    assert name[|name| - 1] in name;
  }

  /** With a denominator, each side of the slash is bracketed exactly when it
      is itself compound: the text starts with `(` iff the numerator is
      compound, and ends with `)` iff the denominator is. */
  lemma ReprParenthesised(c: Compound, fmt: real -> string)
    requires PlainFormat(fmt) && c.den.Some?
    ensures Repr(C(c), fmt)[0] == '(' <==> c.num.C?
    ensures Repr(C(c), fmt)[|Repr(C(c), fmt)| - 1] == ')' <==> c.den.value.C?
  {
    var d := c.den.value;
    var numText := if c.num.C? then "(" + Repr(c.num, fmt) + ")" else Repr(c.num, fmt);
    var denText := if d.C? then "(" + Repr(d, fmt) + ")" else Repr(d, fmt);
    var r := Repr(C(c), fmt);
    assert r == CompoundRepr(c, fmt);
    assert r == numText + "/" + denText;
    assert r[0] == numText[0];
    assert r[|r| - 1] == denText[|denText| - 1];
    if c.num.U? {
      UnitReprUnbracketed(c.num.unit, fmt);
    }
    if d.U? {
      UnitReprUnbracketed(d.unit, fmt);
    }
  }

  /** Wrapping a text in parentheses adds one of each. */
  lemma Parenthesised(s: string, ch: char)
    ensures Occurrences("(" + s + ")", ch) ==
      Occurrences(s, ch) + (if ch == '(' then 1 else 0) + (if ch == ')' then 1 else 0)
  {
    OccurrencesConcat("(" + s, ")", ch);
    OccurrencesConcat("(", s, ch);
  }

  /** The text form writes one slash per denominator and balances its
      parentheses. */
  lemma {:induction false} ReprShape(v: Val, fmt: real -> string)
    requires PlainFormat(fmt)
    ensures Occurrences(Repr(v, fmt), '/') == Denominators(v)
    ensures Occurrences(Repr(v, fmt), '(') == Occurrences(Repr(v, fmt), ')')
    decreases Size(v)
  {
    match v
    case U(u) =>
      UnitReprPlain(u, fmt);
    case C(c) =>
      ReprShape(c.num, fmt);
      match c.den {
        case None =>
        case Some(d) =>
          ReprShape(d, fmt);
          var numText := if c.num.C? then "(" + Repr(c.num, fmt) + ")" else Repr(c.num, fmt);
          var denText := if d.C? then "(" + Repr(d, fmt) + ")" else Repr(d, fmt);
          forall ch: char | ch in {'(', ')', '/'}
            ensures Occurrences(numText, ch) == Occurrences(Repr(c.num, fmt), ch) + (if c.num.C? && ch != '/' then 1 else 0)
            ensures Occurrences(denText, ch) == Occurrences(Repr(d, fmt), ch) + (if d.C? && ch != '/' then 1 else 0)
          {
            Parenthesised(Repr(c.num, fmt), ch);
            Parenthesised(Repr(d, fmt), ch);
          }
          assert Repr(v, fmt) == numText + "/" + denText;
          forall ch: char | ch in {'(', ')', '/'}
            ensures Occurrences(Repr(v, fmt), ch) ==
              Occurrences(numText, ch) + (if ch == '/' then 1 else 0) + Occurrences(denText, ch)
          {
            OccurrencesConcat(numText + "/", denText, ch);
            OccurrencesConcat(numText, "/", ch);
          }
      }
  }
}
