/** What single comparisons of a filter come to: contains over LIKE, and eq of numbers over their texts. */
module FilterValues {
  import opened Wrappers
  import opened Decimal
  import opened FilterSql

  // --------------------------------------------------------- what contains means

  ghost predicate SameFolded(a: string, b: string) {
    |a| == |b| && forall i :: 0 <= i < |a| ==> FoldCase(a[i]) == FoldCase(b[i])
  }

  /** v occurs in s, ASCII case aside. */
  ghost predicate Contains(s: string, v: string) {
    exists i: nat :: ContainsAt(s, v, i)
  }

  ghost predicate ContainsAt(s: string, v: string, i: nat) {
    i + |v| <= |s| && SameFolded(s[i..i + |v|], v)
  }

  predicate NoWildcard(v: string) { '%' !in v && '_' !in v }

  lemma {:induction false} LikeRest(s: string)
    ensures Like("%", s)
  {
    assert "%"[1..] == "";
    if s != "" { LikeRest(s[1..]); }
  }

  /** A pattern of plain characters and a trailing % matches the texts that start with them. */
  lemma {:induction false} LikePrefix(v: string, s: string)
    requires NoWildcard(v)
    ensures Like(v + "%", s) <==> |v| <= |s| && SameFolded(s[..|v|], v)
  {
    if v == "" {
      assert v + "%" == "%";
      LikeRest(s);
    } else {
      assert (v + "%")[0] == v[0] && (v + "%")[1..] == v[1..] + "%";
      if s != "" {
        LikePrefix(v[1..], s[1..]);
        if |v| <= |s| {
          assert s[1..][..|v| - 1] == s[..|v|][1..];
          assert s[..|v|] == [s[0]] + s[..|v|][1..] && v == [v[0]] + v[1..];
        }
      }
    }
  }

  /** A leading % lets the rest match from any position. */
  lemma {:induction false} LikeAnywhere(p: string, s: string)
    ensures Like("%" + p, s) <==> exists i :: 0 <= i <= |s| && Like(p, s[i..])
  {
    assert ("%" + p)[1..] == p && s[0..] == s;
    if s != "" {
      LikeAnywhere(p, s[1..]);
      if i :| 0 <= i <= |s| - 1 && Like(p, s[1..][i..]) { assert s[1..][i..] == s[i + 1..]; }
      if i :| 0 <= i <= |s| && Like(p, s[i..]) {
        if i > 0 { assert s[1..][i - 1..] == s[i..]; }
      }
    }
  }

  /** Each wildcard matches the x put in its place. */
  function Masked(v: string): string {
    if v == "" then "" else [if v[0] == '%' || v[0] == '_' then 'x' else v[0]] + Masked(v[1..])
  }

  lemma {:induction false} MaskedMatches(v: string)
    ensures Like(v + "%", Masked(v))
    ensures |Masked(v)| == |v| && forall i :: 0 <= i < |v| ==> Masked(v)[i] != '%' && Masked(v)[i] != '_'
  {
    if v == "" {
      assert v + "%" == "%";
      LikeRest("");
    } else {
      MaskedMatches(v[1..]);
      var p := v + "%";
      assert p[0] == v[0] && p[1..] == v[1..] + "%";
      assert Masked(v)[1..] == Masked(v[1..]);
      if v[0] == '%' { assert Like(p, Masked(v)[1..]); }
    }
  }

  /** contains means "has this substring, ASCII case aside" exactly for values without % and _. */
  lemma ContainsIff(v: string)
    ensures (forall s :: Like("%" + v + "%", s) <==> Contains(s, v)) <==> NoWildcard(v)
  {
    assert "%" + v + "%" == "%" + (v + "%");
    if NoWildcard(v) {
      forall s ensures Like("%" + v + "%", s) <==> Contains(s, v) {
        LikeAnywhere(v + "%", s);
        forall i | 0 <= i <= |s| ensures Like(v + "%", s[i..]) <==> ContainsAt(s, v, i) {
          LikePrefix(v, s[i..]);
          if i + |v| <= |s| { assert s[i..][..|v|] == s[i..i + |v|]; }
        }
      }
    } else {
      var s := Masked(v);
      MaskedMatches(v);
      LikeAnywhere(v + "%", s);
      assert s[0..] == s;
      var j :| 0 <= j < |v| && (v[j] == '%' || v[j] == '_');
      forall i: nat ensures !ContainsAt(s, v, i) {
        if i == 0 {
          assert s[..|v|] == s;
          assert FoldCase(s[j]) != FoldCase(v[j]);
        }
      }
    }
  }

  // ------------------------------------------------------- what eq means of numbers

  /** Booleans count as 1 and 0. */
  predicate WholeNumber(v: Value) { v.Bool? || v.Int? }

  predicate IsNumber(v: Value) { WholeNumber(v) || v.Float? }

  function NumberOf(v: Value): real
    requires IsNumber(v)
  {
    match v
    case Bool(b) => if b then 1.0 else 0.0
    case Int(i) => i as real
    case Float(x) => x
  }

  predicate Integral(x: real) { x == x.Floor as real }

  /** eq with the number w is numeric equality on the number v. */
  ghost predicate EqIsNumeric(en: Engine, v: Value, w: Value)
    requires IsNumber(v) && IsNumber(w)
  {
    Cast(en, v) == Cast(en, w) <==> NumberOf(v) == NumberOf(w)
  }

  /** Whole numbers have one text each, and no float has the text of a whole number. */
  lemma NumberTexts(en: Engine, v: Value, w: Value)
    requires IsNumber(v) && IsNumber(w)
    ensures Cast(en, v) == Cast(en, w)
      <==> if WholeNumber(v) && WholeNumber(w) then NumberOf(v) == NumberOf(w)
           else v.Float? && w.Float? && FloatText(en, v.x) == FloatText(en, w.x)
  {
    var i := if WholeNumber(v) then NumberOf(v).Floor else if WholeNumber(w) then NumberOf(w).Floor else 0;
    IntTextSpec(i);
    if WholeNumber(v) && WholeNumber(w) {
      if Cast(en, v) == Cast(en, w) { IntTextInjective(NumberOf(v).Floor, NumberOf(w).Floor); }
    } else if v.Float? {
      assert '.' in FloatText(en, v.x);
    } else {
      assert '.' in FloatText(en, w.x);
    }
  }

  /** On whole numbers, such as those of an integer column, eq is numeric exactly for a w that is no integral float. */
  lemma EqOnWholeIff(en: Engine, w: Value)
    requires IsNumber(w)
    ensures (forall v | WholeNumber(v) :: EqIsNumeric(en, v, w)) <==> WholeNumber(w) || !Integral(w.x)
  {
    forall v | WholeNumber(v) ensures EqIsNumeric(en, v, w) <==> WholeNumber(w) || NumberOf(v) != w.x {
      NumberTexts(en, v, w);
    }
    if w.Float? && Integral(w.x) {
      assert WholeNumber(Int(w.x.Floor)) && NumberOf(Int(w.x.Floor)) == w.x;
    }
  }

  /** On all numbers it is so exactly for a float that is not integral and shares its text with no other float. */
  lemma EqOnNumbersIff(en: Engine, w: Value)
    requires IsNumber(w)
    ensures (forall v | IsNumber(v) :: EqIsNumeric(en, v, w))
      <==> w.Float? && !Integral(w.x) && forall x :: FloatText(en, x) == FloatText(en, w.x) ==> x == w.x
  {
    forall v | IsNumber(v)
      ensures EqIsNumeric(en, v, w)
        <==> if WholeNumber(v) && WholeNumber(w) then true
             else if WholeNumber(v) || WholeNumber(w) then NumberOf(v) != NumberOf(w)
             else FloatText(en, v.x) == FloatText(en, w.x) ==> v.x == w.x
    {
      NumberTexts(en, v, w);
    }
    if WholeNumber(w) {
      assert !EqIsNumeric(en, Float(NumberOf(w)), w);
    } else if forall v | IsNumber(v) :: EqIsNumeric(en, v, w) {
      EqOnWholeIff(en, w);
      forall x | FloatText(en, x) == FloatText(en, w.x) ensures x == w.x { assert EqIsNumeric(en, Float(x), w); }
    }
  }
}
