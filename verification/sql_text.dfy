/**
  The SQL text of compiled filters. Field names are pasted into string literals
  as they are, so the text is spelled out here character by character where a
  field stands, and read back the way SQL reads literals.
*/
module SqlText {
  import opened Wrappers
  import opened FilterSql
  import opened FilterValues

  /** What surrounds the column of an atom. */
  datatype Shape = ShEq | ShNe | ShCompare(cmp: Comparison) | ShIn(arity: nat) | ShLike

  /**
    A fixed stretch of text without quotes, the stretches before and after the
    literal of a JSON path, or one character of that literal, quotes included.
  */
  datatype Sym = Fixed(token: Token) | Before(shape: Shape) | After(shape: Shape) | Ch(c: char)

  const QUOTE := Ch('\'')
  const NUL := Ch('\0')

  function ShapeOf(a: Atom): Shape
    requires !a.Match?
  {
    match a
    case CastEq(_) => ShEq
    case CastNe(_) => ShNe
    case Compare(_, cmp) => ShCompare(cmp)
    case CastIn(_, n) => ShIn(n)
    case CastLike(_) => ShLike
  }

  function Shaped(shape: Shape, col: Column): Atom {
    match shape
    case ShEq => CastEq(col)
    case ShNe => CastNe(col)
    case ShCompare(cmp) => Compare(col, cmp)
    case ShIn(n) => CastIn(col, n)
    case ShLike => CastLike(col)
  }

  /** The token has a JSON path, which is spelled inside quotes. */
  predicate Quoted(t: Token) { t.Of? && !t.atom.Match? && t.atom.col.Json? }

  function Chars(s: string): seq<Sym> {
    seq(|s|, i requires 0 <= i < |s| => Ch(s[i]))
  }

  function SpellToken(t: Token): seq<Sym> {
    if Quoted(t) then
      [Before(ShapeOf(t.atom)), QUOTE] + Chars(t.atom.col.path) + [QUOTE, After(ShapeOf(t.atom))]
    else [Fixed(t)]
  }

  function Spell(ts: seq<Token>): seq<Sym> {
    if ts == [] then [] else SpellToken(ts[0]) + Spell(ts[1..])
  }

  // ------------------------------------------------------------ reading it back

  datatype Lexeme = Sign(sym: Sym) | Literal(content: seq<Sym>)

  /**
    A literal's content and what follows it, read from behind the opening quote; a
    doubled quote is one quote of content.
  */
  function ReadLiteral(text: seq<Sym>): (r: Option<(seq<Sym>, seq<Sym>)>)
    ensures r.Some? ==> |r.value.1| < |text|
  {
    if text == [] || text[0] == NUL then None
    else if text[0] == QUOTE && !(|text| > 1 && text[1] == QUOTE) then Some(([], text[1..]))
    else
      var r := ReadLiteral(if text[0] == QUOTE then text[2..] else text[1..]);
      if r == None then None else Some(([text[0]] + r.value.0, r.value.1))
  }

  function Prepend<T>(head: T, rest: Option<seq<T>>): Option<seq<T>> {
    if rest == None then None else Some([head] + rest.value)
  }

  /** None for a literal that does not end, or for the character that ends a statement early. */
  function Lex(text: seq<Sym>): Option<seq<Lexeme>>
    decreases |text|
  {
    if text == [] then Some([])
    else if text[0] == NUL then None
    else if text[0] == QUOTE then
      var r := ReadLiteral(text[1..]);
      if r == None then None else Prepend(Literal(r.value.0), Lex(r.value.1))
    else Prepend(Sign(text[0]), Lex(text[1..]))
  }

  predicate AllChars(content: seq<Sym>) { forall i :: 0 <= i < |content| ==> content[i].Ch? }

  function TextOf(content: seq<Sym>): string
    requires AllChars(content)
  {
    seq(|content|, i requires 0 <= i < |content| => content[i].c)
  }

  /** The tokens that the lexemes are; None when they are not those of any predicate of this compiler. */
  function Regroup(ls: seq<Lexeme>): Option<seq<Token>> {
    if ls == [] then Some([])
    else if ls[0].Sign? && ls[0].sym.Fixed? then Prepend(ls[0].sym.token, Regroup(ls[1..]))
    else if && |ls| >= 3 && ls[0].Sign? && ls[0].sym.Before? && ls[2] == Sign(After(ls[0].sym.shape))
            && ls[1].Literal? && AllChars(ls[1].content) then
      Prepend(Of(Shaped(ls[0].sym.shape, Json(TextOf(ls[1].content)))), Regroup(ls[3..]))
    else None
  }

  function ReadBack(text: seq<Sym>): Option<seq<Token>> {
    var ls := Lex(text);
    if ls == None then None else Regroup(ls.value)
  }

  // --------------------------------------------- when the text reads as intended

  lemma {:induction false} GoodLiteral(path: string, after: seq<Sym>)
    requires Quotable(path) && after != [] && after[0] != QUOTE
    ensures ReadLiteral(Chars(path) + [QUOTE] + after) == Some((Chars(path), after))
  {
    var text := Chars(path) + [QUOTE] + after;
    if path == "" {
      assert text == [QUOTE] + after && text[1] == after[0] && text[1..] == after;
    } else {
      GoodLiteral(path[1..], after);
      assert text[0] == Ch(path[0]) && path[0] in path;
      assert text[1..] == Chars(path[1..]) + [QUOTE] + after;
      assert Chars(path) == [Ch(path[0])] + Chars(path[1..]);
    }
  }

  function Doubled(content: seq<Sym>): seq<Sym> {
    if content == [] then []
    else (if content[0] == QUOTE then [QUOTE, QUOTE] else [content[0]]) + Doubled(content[1..])
  }

  lemma DoubledMore(sym: Sym, content: seq<Sym>)
    ensures Doubled([sym] + content) == (if sym == QUOTE then [QUOTE, QUOTE] else [sym]) + Doubled(content)
  {
    assert ([sym] + content)[1..] == content;
  }

  function HeadOf(text: seq<Sym>): seq<Sym>
    requires text != []
  {
    if text[0] == QUOTE then [QUOTE, QUOTE] else [text[0]]
  }

  predicate Closes(text: seq<Sym>) {
    text != [] && text[0] == QUOTE && !(|text| > 1 && text[1] == QUOTE)
  }

  lemma HeadStands(text: seq<Sym>)
    requires text != [] && !Closes(text)
    ensures |HeadOf(text)| <= |text| && text == HeadOf(text) + text[|HeadOf(text)|..]
  {
  }

  lemma Rejoined(head: seq<Sym>, doubled: seq<Sym>, rest: seq<Sym>)
    ensures head + (doubled + [QUOTE] + rest) == (head + doubled) + [QUOTE] + rest
  {
  }

  /** What was read as a literal stood there with its quotes doubled. */
  lemma {:induction false} LiteralStood(text: seq<Sym>)
    requires ReadLiteral(text).Some?
    ensures text == Doubled(ReadLiteral(text).value.0) + [QUOTE] + ReadLiteral(text).value.1
    ensures NUL !in ReadLiteral(text).value.0
    decreases |text|
  {
    if Closes(text) {
      assert text == [QUOTE] + text[1..];
    } else {
      HeadStands(text);
      var next := text[|HeadOf(text)|..];
      LiteralStood(next);
      var (content, rest) := ReadLiteral(next).value;
      assert ReadLiteral(text) == Some(([text[0]] + content, rest));
      DoubledMore(text[0], content);
      Rejoined(HeadOf(text), Doubled(content), rest);
    }
  }

  lemma {:induction false} DoubledLonger(content: seq<Sym>)
    ensures |Doubled(content)| >= |content|
    ensures QUOTE in content ==> |Doubled(content)| > |content|
    ensures AllChars(content) ==> AllChars(Doubled(content))
  {
    if content != [] { DoubledLonger(content[1..]); }
  }

  /** A path that is read back as it was holds no quote and no end-of-statement character. */
  lemma ReadAsWas(path: string, sign: Sym, after: seq<Sym>)
    requires !sign.Ch?
    requires var r := ReadLiteral(Chars(path) + [QUOTE, sign] + after); r.Some? && r.value.0 == Chars(path)
    ensures Quotable(path)
  {
    var text, content := Chars(path) + [QUOTE, sign] + after, Chars(path);
    LiteralStood(text);
    DoubledLonger(content);
    var stood := Doubled(content) + [QUOTE];
    assert text == stood + ReadLiteral(text).value.1;
    forall k | 0 <= k < |stood| ensures text[k].Ch? {
      assert text[k] == stood[k];
    }
    assert text[|path| + 1] == sign;
    forall k | 0 <= k < |path| ensures path[k] != '\'' && path[k] != '\0' {
      assert content[k] == Ch(path[k]);
      assert content[k] in content;
    }
  }

  function LexemesOf(t: Token): seq<Lexeme> {
    if Quoted(t) then
      [Sign(Before(ShapeOf(t.atom))), Literal(Chars(t.atom.col.path)), Sign(After(ShapeOf(t.atom)))]
    else [Sign(Fixed(t))]
  }

  predicate TokenQuotable(t: Token) { Quoted(t) ==> Quotable(t.atom.col.path) }

  function Onto(ls: seq<Lexeme>, rest: Option<seq<Lexeme>>): Option<seq<Lexeme>> {
    if rest == None then None else Some(ls + rest.value)
  }

  lemma LexSign(sym: Sym, rest: seq<Sym>)
    requires !sym.Ch?
    ensures Lex([sym] + rest) == Onto([Sign(sym)], Lex(rest))
  {
    assert ([sym] + rest)[1..] == rest;
  }

  lemma LexLiteral(path: string, after: seq<Sym>)
    requires Quotable(path) && after != [] && after[0] != QUOTE
    ensures Lex([QUOTE] + (Chars(path) + [QUOTE] + after)) == Onto([Literal(Chars(path))], Lex(after))
  {
    GoodLiteral(path, after);
    var text := [QUOTE] + (Chars(path) + [QUOTE] + after);
    assert text[1..] == Chars(path) + [QUOTE] + after;
  }

  lemma OntoTwice(a: seq<Lexeme>, b: seq<Lexeme>, rest: Option<seq<Lexeme>>)
    ensures Onto(a, Onto(b, rest)) == Onto(a + b, rest)
  {
    if rest.Some? { assert a + (b + rest.value) == a + b + rest.value; }
  }

  lemma SameText(sh: Shape, chars: seq<Sym>, rest: seq<Sym>)
    ensures [Before(sh), QUOTE] + chars + [QUOTE, After(sh)] + rest
      == [Before(sh)] + ([QUOTE] + (chars + [QUOTE] + ([After(sh)] + rest)))
  {
  }

  lemma LexQuoted(sh: Shape, path: string, rest: seq<Sym>)
    requires Quotable(path)
    ensures Lex([Before(sh), QUOTE] + Chars(path) + [QUOTE, After(sh)] + rest)
      == Onto([Sign(Before(sh)), Literal(Chars(path)), Sign(After(sh))], Lex(rest))
  {
    var after := [After(sh)] + rest;
    var quoted := [QUOTE] + (Chars(path) + [QUOTE] + after);
    LexSign(After(sh), rest);
    LexLiteral(path, after);
    LexSign(Before(sh), quoted);
    SameText(sh, Chars(path), rest);
    var b, l, a := [Sign(Before(sh))], [Literal(Chars(path))], [Sign(After(sh))];
    OntoTwice(l, a, Lex(rest));
    OntoTwice(b, l + a, Lex(rest));
    assert b + (l + a) == [Sign(Before(sh)), Literal(Chars(path)), Sign(After(sh))];
  }

  lemma LexGood(t: Token, rest: seq<Sym>)
    requires TokenQuotable(t)
    ensures Lex(SpellToken(t) + rest) == Onto(LexemesOf(t), Lex(rest))
  {
    if Quoted(t) {
      LexQuoted(ShapeOf(t.atom), t.atom.col.path, rest);
    } else {
      LexSign(Fixed(t), rest);
    }
  }

  lemma CharsAndBack(s: string)
    ensures AllChars(Chars(s)) && TextOf(Chars(s)) == s
  {
  }

  lemma BackAndChars(content: seq<Sym>)
    requires AllChars(content)
    ensures Chars(TextOf(content)) == content
  {
  }

  lemma RegroupGood(t: Token, ls: seq<Lexeme>)
    ensures Regroup(LexemesOf(t) + ls) == Prepend(t, Regroup(ls))
  {
    var all := LexemesOf(t) + ls;
    if Quoted(t) {
      CharsAndBack(t.atom.col.path);
      assert all[3..] == ls;
    } else {
      assert all[1..] == ls;
    }
  }

  /** The literal is the second lexeme of a quoted token's text, whatever it comes to. */
  lemma SecondLexeme(sh: Shape, path: string, rest: seq<Sym>)
    requires Lex([Before(sh), QUOTE] + Chars(path) + [QUOTE, After(sh)] + rest).Some?
    ensures var ls := Lex([Before(sh), QUOTE] + Chars(path) + [QUOTE, After(sh)] + rest).value;
      var r := ReadLiteral(Chars(path) + [QUOTE, After(sh)] + rest);
      |ls| >= 2 && ls[0] == Sign(Before(sh)) && r.Some? && ls[1] == Literal(r.value.0)
  {
    var inner := Chars(path) + [QUOTE, After(sh)] + rest;
    assert [Before(sh), QUOTE] + Chars(path) + [QUOTE, After(sh)] + rest == [Before(sh)] + ([QUOTE] + inner);
    LexSign(Before(sh), [QUOTE] + inner);
    assert ([QUOTE] + inner)[1..] == inner;
  }

  /** Regrouping takes the path from the second lexeme. */
  lemma FirstRegrouped(ls: seq<Lexeme>, t: Token)
    requires |ls| >= 2 && ls[0].Sign? && ls[0].sym.Before? && ls[1].Literal? && Quoted(t)
    requires Regroup(ls).Some? && Regroup(ls).value != [] && Regroup(ls).value[0] == t
    ensures ls[1].content == Chars(t.atom.col.path)
  {
    BackAndChars(ls[1].content);
  }

  /** A token with an unquotable path is not what is read back first. */
  lemma BadTokenReads(t: Token, rest: seq<Sym>)
    requires !TokenQuotable(t)
    ensures var r := ReadBack(SpellToken(t) + rest); r.Some? ==> r.value == [] || r.value[0] != t
  {
    var sh, path := ShapeOf(t.atom), t.atom.col.path;
    var r := ReadBack(SpellToken(t) + rest);
    if r.Some? && r.value != [] && r.value[0] == t {
      SecondLexeme(sh, path, rest);
      FirstRegrouped(Lex(SpellToken(t) + rest).value, t);
      ReadAsWas(path, After(sh), rest);
    }
  }

  /**
    The text of a predicate reads back as its tokens exactly when no JSON path in
    it holds a quote or the end-of-statement character.
  */
  lemma {:induction false} ReadsBackIff(ts: seq<Token>)
    ensures ReadBack(Spell(ts)) == Some(ts) <==> forall i :: 0 <= i < |ts| ==> TokenQuotable(ts[i])
  {
    if ts != [] {
      var rest := Spell(ts[1..]);
      if TokenQuotable(ts[0]) {
        LexGood(ts[0], rest);
        if Lex(rest).Some? { RegroupGood(ts[0], Lex(rest).value); }
        ReadsBackIff(ts[1..]);
        assert ReadBack(Spell(ts)) == Prepend(ts[0], ReadBack(rest));
        assert ts == [ts[0]] + ts[1..];
        assert forall i :: 1 <= i < |ts| ==> ts[i] == ts[1..][i - 1];
      } else {
        BadTokenReads(ts[0], rest);
      }
    }
  }

  // ---------------------------------------------------------- compiled filters

  predicate AllQuotable(ts: seq<Token>) { forall i :: 0 <= i < |ts| ==> TokenQuotable(ts[i]) }

  /** No field outside the table's columns holds a quote or the end-of-statement character. */
  predicate ClausesQuotable(cs: seq<Clause>) {
    forall i :: 0 <= i < |cs| ==> cs[i].field in REAL_COLUMNS || Quotable(cs[i].field)
  }

  predicate FilterQuotable(f: Option<FilterExpr>) {
    f.Some? ==> ClausesQuotable(Clauses(f.value.ands)) && ClausesQuotable(Clauses(f.value.ors))
  }

  lemma PathQuotable(field: string)
    ensures Quotable("$." + field) <==> Quotable(field)
  {
    var path := "$." + field;
    assert path[0] == '$' && path[1] == '.';
    assert forall i :: 0 <= i < |field| ==> path[i + 2] == field[i];
    assert forall i :: 2 <= i < |path| ==> path[i] == field[i - 2];
  }

  lemma ClauseQuotable(en: Engine, c: Clause)
    requires ClauseSql(en, c).Success?
    ensures TokenQuotable(Of(ClauseSql(en, c).value.atom)) <==> c.field in REAL_COLUMNS || Quotable(c.field)
  {
    ClauseColumn(en, c);
    PathQuotable(c.field);
  }

  lemma QuotableSplit(a: seq<Token>, b: seq<Token>)
    ensures AllQuotable(a + b) <==> AllQuotable(a) && AllQuotable(b)
  {
    assert forall i :: 0 <= i < |a| ==> a[i] == (a + b)[i];
    assert forall i :: 0 <= i < |b| ==> b[i] == (a + b)[|a| + i];
  }

  lemma {:induction false} JoinedQuotable(en: Engine, cs: seq<Clause>, join: Token)
    requires Pieces(en, cs).Success? && join in {KwAnd, KwOr}
    ensures AllQuotable(Joined(Pieces(en, cs).value, join)) <==> ClausesQuotable(cs)
  {
    if cs != [] {
      var ps := Pieces(en, cs).value;
      ClauseQuotable(en, cs[0]);
      JoinedQuotable(en, cs[1..], join);
      assert ps[1..] == Pieces(en, cs[1..]).value;
      assert forall i :: 1 <= i < |cs| ==> cs[i] == cs[1..][i - 1];
      var first := Of(ps[0].atom);
      QuotableSplit([first, join], Joined(ps[1..], join));
      assert [first, join][0] == first && [first][0] == first;
      SamePieces(en, cs);
    }
  }

  lemma {:induction false} SamePieces(en: Engine, cs: seq<Clause>)
    requires Pieces(en, cs).Success?
    ensures |Pieces(en, cs).value| == |cs|
  {
    if cs != [] { SamePieces(en, cs[1..]); }
  }

  lemma GroupQuotable(en: Engine, cs: seq<Clause>, join: Token)
    requires Pieces(en, cs).Success? && join in {KwAnd, KwOr}
    ensures AllQuotable(Grouped(Pieces(en, cs).value, join).tokens) <==> ClausesQuotable(cs)
  {
    var ps := Pieces(en, cs).value;
    JoinedQuotable(en, cs, join);
    SamePieces(en, cs);
    var inner := Joined(ps, join);
    QuotableSplit([Open] + inner, [Close]);
    QuotableSplit([Open], inner);
  }

  /**
    A compiled filter's text reads back as the intended tokens exactly when no
    field outside the table's columns holds a quote or the end-of-statement
    character.
  */
  lemma CompiledReadsBackIff(en: Engine, f: Option<FilterExpr>)
    requires Compiled(en, f).Success?
    ensures ReadBack(Spell(Compiled(en, f).value.tokens)) == Some(Compiled(en, f).value.tokens) <==> FilterQuotable(f)
  {
    var ts := Compiled(en, f).value.tokens;
    ReadsBackIff(ts);
    if f.Some? {
      var a := Grouped(Pieces(en, Clauses(f.value.ands)).value, KwAnd).tokens;
      var o := Grouped(Pieces(en, Clauses(f.value.ors)).value, KwOr).tokens;
      GroupQuotable(en, Clauses(f.value.ands), KwAnd);
      GroupQuotable(en, Clauses(f.value.ors), KwOr);
      var link := if a != [] && o != [] then [KwAnd] else [];
      assert ts == a + link + o;
      QuotableSplit(a + link, o);
      QuotableSplit(a, link);
    }
  }

  // -------------------------------------------------------------- what queries do

  /** SQL text and its positional parameters. */
  datatype Query = Query(text: seq<Sym>, params: seq<Value>)

  function Written(sql: Sql): Query { Query(Spell(sql.tokens), sql.params) }

  /** What a query's predicate evaluates to; what text that is no predicate of this compiler does is left open. */
  ghost function QueryValue(en: Engine, row: Row, q: Query): Valued {
    var ts := ReadBack(q.text);
    if ts == None then Stuck else SqlValue(en, row, Sql(ts.value, q.params))
  }

  /** Whether the query returns the row. */
  ghost predicate Selects(en: Engine, row: Row, q: Query) {
    QueryValue(en, row, q) == Value3(True, [])
  }

  /**
    Compilation preserves meaning, for every filter whose text reads back: the text
    is a predicate, which parses as a whole, and its value, taking its parameters
    from left to right, is the three-valued meaning of the filter over the values
    that columns and paths find, with no parameter left over; a malformed path, if
    there is one, stops it.
  */
  lemma QueryMeaning(en: Engine, row: Row, f: Option<FilterExpr>)
    requires Compiled(en, f).Success? && FilterQuotable(f)
    ensures QueryValue(en, row, Written(Compiled(en, f).value)) == FilterValue(en, row, f)
  {
    CompiledReadsBackIff(en, f);
    TokensMeaning(en, row, f);
  }

  lemma AddressableQuotable(en: Engine, f: Option<FilterExpr>)
    requires FilterAddressable(en, f)
    ensures FilterQuotable(f)
  {
    if f.Some? {
      var ands, ors := Clauses(f.value.ands), Clauses(f.value.ors);
      assert forall i :: 0 <= i < |ands| ==> ands[i] in ands;
      assert forall i :: 0 <= i < |ors| ==> ors[i] in ors;
    }
  }

  /** Where every field is a column or can be addressed, that is the meaning over the fields' own values. */
  lemma CompiledMeaning(en: Engine, row: Row, f: Option<FilterExpr>)
    requires Compiled(en, f).Success? && FilterAddressable(en, f)
    ensures QueryValue(en, row, Written(Compiled(en, f).value)) == Value3(FilterMeaning(en, Own(row), f), [])
  {
    AddressableQuotable(en, f);
    QueryMeaning(en, row, f);
    AddressableMeaning(en, row, f);
  }

  /** The query then returns a row exactly when the filter is true of it. */
  lemma SelectsIff(en: Engine, row: Row, f: Option<FilterExpr>)
    requires Compiled(en, f).Success? && FilterAddressable(en, f)
    ensures Selects(en, row, Written(Compiled(en, f).value)) <==> FilterMeaning(en, Own(row), f) == True
  {
    CompiledMeaning(en, row, f);
  }

  lemma KeywordReadsBack(phrase: Value, sql: Sql)
    requires ReadBack(Spell(sql.tokens)) == Some(sql.tokens)
    ensures ReadBack(Spell(Keyword(phrase, sql).tokens)) == Some(Keyword(phrase, sql).tokens)
  {
    var ts := sql.tokens;
    ReadsBackIff(ts);
    var link := if ts != [] then [KwAnd] else [];
    var all := Keyword(phrase, sql).tokens;
    assert all == [Of(Match)] + link + ts;
    QuotableSplit([Of(Match)] + link, ts);
    QuotableSplit([Of(Match)], link);
    ReadsBackIff(all);
  }

  /** In a keyword search every predicate whose text reads back stays one conjunct beside the match. */
  lemma KeywordMeaning(en: Engine, row: Row, phrase: Value, f: Option<FilterExpr>)
    requires Compiled(en, f).Success? && FilterQuotable(f)
    ensures var sql := Compiled(en, f).value;
      QueryValue(en, row, Written(Keyword(phrase, sql)))
      == Conjoined(en, row, phrase, QueryValue(en, row, Written(sql)))
  {
    CompiledReadsBackIff(en, f);
    KeywordReadsBack(phrase, Compiled(en, f).value);
    KeywordTokensMeaning(en, row, phrase, f);
    QueryMeaning(en, row, f);
  }

  lemma ExclusionQuotable(f: Option<FilterExpr>)
    requires FilterQuotable(f)
    ensures FilterQuotable(Some(ExcludeCache(f)))
  {
    ExcludeCacheGroups(f);
    var kept := if f == None then [] else Clauses(f.value.ands);
    assert forall i :: 0 <= i < |kept| ==> (kept + [EXCLUSION])[i] == kept[i];
    assert EXCLUSION.field in REAL_COLUMNS;
  }

  /**
    For every filter whose text reads back, with the cache excluded a row is returned
    exactly when it is without, and it does not belong to the cache.
  */
  lemma ExclusionIsExact(en: Engine, row: Row, f: Option<FilterExpr>)
    requires Compiled(en, f).Success? && FilterQuotable(f) && Stored(row)
    ensures Compiled(en, Some(ExcludeCache(f))).Success?
    ensures Selects(en, row, Written(Compiled(en, Some(ExcludeCache(f))).value))
      <==> Selects(en, row, Written(Compiled(en, f).value)) && row.columns["doc_id"] != Text(CACHE_DOC_ID)
  {
    ExcludeCacheCompiles(en, f);
    ExclusionQuotable(f);
    QueryMeaning(en, row, f);
    QueryMeaning(en, row, Some(ExcludeCache(f)));
    ExcludedValue(en, row, f);
  }

  // ------------------------------------------------ fields that cannot be addressed

  function OneClause(field: string, op: Op, value: Value): Option<FilterExpr> {
    Some(FilterExpr(Some([Clause(field, op, value)]), None))
  }

  function Sought(field: string): Option<FilterExpr> { OneClause(field, OpEq, Text("x")) }

  lemma OneClauseTokens(en: Engine, field: string, op: Op, value: Value)
    requires op in {OpEq, OpNe}
    ensures var a := if op == OpEq then CastEq(FieldSql(field)) else CastNe(FieldSql(field));
      Compiled(en, OneClause(field, op, value)) == Success(Sql([Open, Of(a), Close], [value]))
  {
    var c := Clause(field, op, value);
    assert [c][1..] == [];
    var p := Piece(if op == OpEq then CastEq(FieldSql(field)) else CastNe(FieldSql(field)), [value]);
    assert Pieces(en, [c]) == Success([p] + []);
    assert [p] + [] == [p] && [p][1..] == [];
    var none: seq<Value> := [];
    assert AllParams([p]) == [value] + none == [value];
    var group := Grouped([p], KwAnd);
    assert group.tokens == [Open] + [Of(p.atom)] + [Close] == [Open, Of(p.atom), Close];
    assert Pieces(en, Clauses(None)) == Success([]);
    var rest := Grouped([], KwOr);
    assert rest == Sql([], none);
    assert AndThen(group, rest).tokens == group.tokens && AndThen(group, rest).params == group.params;
  }

  lemma OneClauseMeaning(en: Engine, look: string -> Value, field: string, op: Op, value: Value)
    ensures FilterMeaning(en, look, OneClause(field, op, value)) == Meaning(en, look(field), Clause(field, op, value))
  {
    var c := Clause(field, op, value);
    assert [c][1..] == [];
    assert AllOf(en, look, [c]) == And(Meaning(en, look(field), c), AllOf(en, look, []));
  }

  lemma SoughtTrue(en: Engine, field: string)
    requires field !in REAL_COLUMNS
    ensures FilterMeaning(en, Own(RowWith(field)), Sought(field)) == True
  {
    OneClauseMeaning(en, Own(RowWith(field)), field, OpEq, Text("x"));
    assert Own(RowWith(field))(field) == Text("x");
  }

  /** A quote in a field name: the text is no longer the predicate that was meant, whatever follows. */
  lemma QuoteInField(en: Engine)
    ensures Compiled(en, Sought("a'b")).Success?
    ensures ReadBack(Spell(Compiled(en, Sought("a'b")).value.tokens)) != Some(Compiled(en, Sought("a'b")).value.tokens)
    ensures FilterMeaning(en, Own(RowWith("a'b")), Sought("a'b")) == True
  {
    OneClauseTokens(en, "a'b", OpEq, Text("x"));
    SoughtTrue(en, "a'b");
    CompiledReadsBackIff(en, Sought("a'b"));
    assert "a'b"[1] == '\'';
    assert Clauses(Sought("a'b").value.ands)[0].field == "a'b";
  }

  lemma OneClauseSelects(en: Engine, row: Row, field: string, op: Op, value: Value)
    requires op in {OpEq, OpNe} && (field in REAL_COLUMNS || Quotable(field))
    ensures Compiled(en, OneClause(field, op, value)).Success?
    ensures Selects(en, row, Written(Compiled(en, OneClause(field, op, value)).value))
      <==> FieldReadable(field) && Meaning(en, AsRead(en, row)(field), Clause(field, op, value)) == True
  {
    OneClauseTokens(en, field, op, value);
    OneClauseMeaning(en, AsRead(en, row), field, op, value);
    QueryMeaning(en, row, OneClause(field, op, value));
    var c := Clause(field, op, value);
    assert forall d :: d in [c] <==> d == c;
  }

  /** The whole failing family: a field that is not found under its own name misses the row that has that very key. */
  lemma MissedField(en: Engine, field: string)
    requires field !in REAL_COLUMNS && Quotable(field) && !(OneLabel(field) && Verbatim(en, field))
    ensures Compiled(en, Sought(field)).Success?
    ensures FilterMeaning(en, Own(RowWith(field)), Sought(field)) == True
    ensures !Selects(en, RowWith(field), Written(Compiled(en, Sought(field)).value))
  {
    SoughtTrue(en, field);
    if FieldReadable(field) { LabelMisses(en, field); }
    OneClauseSelects(en, RowWith(field), field, OpEq, Text("x"));
  }

  /** A dot in a field name: the path has two labels. */
  lemma DotInField(en: Engine)
    ensures Compiled(en, Sought("a.b")).Success?
    ensures FilterMeaning(en, Own(RowWith("a.b")), Sought("a.b")) == True
    ensures !Selects(en, RowWith("a.b"), Written(Compiled(en, Sought("a.b")).value))
  {
    assert "a.b"[1] == '.' && !OneLabel("a.b");
    MissedField(en, "a.b");
  }

  const PAGE_THREE := Row(map["page" := Int(3)], map[])

  /** A row of page 3 is not equal to 3.0, and it is unequal to it: texts are compared. */
  lemma IntegralFloatInEq(en: Engine)
    ensures Compiled(en, OneClause("page", OpEq, Float(3.0))).Success?
    ensures !Selects(en, PAGE_THREE, Written(Compiled(en, OneClause("page", OpEq, Float(3.0))).value))
    ensures Compiled(en, OneClause("page", OpNe, Float(3.0))).Success?
    ensures Selects(en, PAGE_THREE, Written(Compiled(en, OneClause("page", OpNe, Float(3.0))).value))
  {
    ColumnRead(en, PAGE_THREE, "page");
    NumberTexts(en, Int(3), Float(3.0));
    OneClauseSelects(en, PAGE_THREE, "page", OpEq, Float(3.0));
    OneClauseSelects(en, PAGE_THREE, "page", OpNe, Float(3.0));
  }

  // ----------------------------------------------------------- the loops themselves

  function JoinText(texts: seq<seq<Sym>>, join: Token): seq<Sym> {
    if texts == [] then []
    else if |texts| == 1 then texts[0]
    else texts[0] + [Fixed(join)] + JoinText(texts[1..], join)
  }

  function TextsOf(pieces: seq<Piece>): seq<seq<Sym>> {
    seq(|pieces|, i requires 0 <= i < |pieces| => SpellToken(Of(pieces[i].atom)))
  }

  lemma {:induction false} SpellSplit(a: seq<Token>, b: seq<Token>)
    ensures Spell(a + b) == Spell(a) + Spell(b)
  {
    if a == [] {
      assert a + b == b;
    } else {
      assert (a + b)[1..] == a[1..] + b;
      SpellSplit(a[1..], b);
    }
  }

  lemma SpellOne(t: Token)
    ensures Spell([t]) == SpellToken(t)
  {
    assert [t][1..] == [];
  }

  lemma {:induction false} SpellJoined(pieces: seq<Piece>, join: Token)
    requires join in {KwAnd, KwOr}
    ensures Spell(Joined(pieces, join)) == JoinText(TextsOf(pieces), join)
  {
    if pieces != [] {
      var first := Of(pieces[0].atom);
      SpellOne(first);
      assert TextsOf(pieces)[1..] == TextsOf(pieces[1..]);
      if |pieces| > 1 {
        SpellJoined(pieces[1..], join);
        SpellSplit([first, join], Joined(pieces[1..], join));
        SpellSplit([first], [join]);
        SpellOne(join);
        assert [first, join] == [first] + [join];
      }
    }
  }

  lemma SpellGroup(pieces: seq<Piece>, join: Token)
    requires pieces != [] && join in {KwAnd, KwOr}
    ensures Spell(Grouped(pieces, join).tokens) == [Fixed(Open)] + JoinText(TextsOf(pieces), join) + [Fixed(Close)]
  {
    SpellJoined(pieces, join);
    SpellSplit([Open] + Joined(pieces, join), [Close]);
    SpellSplit([Open], Joined(pieces, join));
    SpellOne(Open);
    SpellOne(Close);
  }

  lemma SpellAnd(a: Sql, b: Sql)
    requires a.tokens != [] && b.tokens != []
    ensures Spell(AndThen(a, b).tokens) == Spell(a.tokens) + [Fixed(KwAnd)] + Spell(b.tokens)
  {
    SpellSplit(a.tokens + [KwAnd], b.tokens);
    SpellSplit(a.tokens, [KwAnd]);
    SpellOne(KwAnd);
  }

  lemma {:induction false} ParamsMore(pieces: seq<Piece>, p: Piece)
    ensures AllParams(pieces + [p]) == AllParams(pieces) + p.params
  {
    if pieces == [] {
      assert pieces + [p] == [p] && [p][1..] == [];
    } else {
      assert (pieces + [p])[1..] == pieces[1..] + [p];
      ParamsMore(pieces[1..], p);
    }
  }

  /** Pieces already made, followed by those of a result. */
  function Behind(made: seq<Piece>, r: Result<seq<Piece>, Error>): Result<seq<Piece>, Error> {
    match r
    case Failure(e) => Failure(e)
    case Success(ps) => Success(made + ps)
  }

  lemma PiecesNext(en: Engine, cs: seq<Clause>, i: nat, made: seq<Piece>)
    requires i < |cs|
    ensures Behind(made, Pieces(en, cs[i..]))
      == match ClauseSql(en, cs[i])
         case Failure(e) => Failure(e)
         case Success(p) => Behind(made + [p], Pieces(en, cs[i + 1..]))
  {
    assert cs[i..][0] == cs[i] && cs[i..][1..] == cs[i + 1..];
    var rest := Pieces(en, cs[i + 1..]);
    if ClauseSql(en, cs[i]).Success? && rest.Success? {
      var p := ClauseSql(en, cs[i]).value;
      assert made + ([p] + rest.value) == (made + [p]) + rest.value;
    }
  }

  lemma BehindNone(r: Result<seq<Piece>, Error>)
    ensures Behind([], r) == r
  {
    if r.Success? { assert [] + r.value == r.value; }
  }

  class SQLiteVectorStore {
    const en: Engine

    constructor (en: Engine)
      ensures this.en == en
    {
      this.en := en;
    }

    /** The text of a group of clauses in parentheses, field names spelled as given, and its parameters. */
    method ClauseGroup(clauses: seq<Clause>, join: Token) returns (r: Result<Query, Error>)
      requires join in {KwAnd, KwOr}
      ensures r == match Pieces(en, clauses)
                   case Failure(e) => Failure(e)
                   case Success(ps) => Success(Written(Grouped(ps, join)))
    {
      var texts: seq<seq<Sym>> := [];
      var params: seq<Value> := [];
      ghost var pieces: seq<Piece> := [];
      BehindNone(Pieces(en, clauses));
      assert clauses[0..] == clauses;
      for i := 0 to |clauses|
        invariant texts == TextsOf(pieces) && params == AllParams(pieces)
        invariant Behind(pieces, Pieces(en, clauses[i..])) == Pieces(en, clauses)
      {
        var piece := ClauseSql(en, clauses[i]);
        PiecesNext(en, clauses, i, pieces);
        if piece.Failure? {
          return Failure(piece.error);
        }
        ParamsMore(pieces, piece.value);
        pieces := pieces + [piece.value];
        texts := texts + [SpellToken(Of(piece.value.atom))];
        params := params + piece.value.params;
      }
      assert pieces + [] == pieces;
      if texts == [] {
        return Success(Query([], params));
      }
      SpellGroup(pieces, join);
      r := Success(Query([Fixed(Open)] + JoinText(texts, join) + [Fixed(Close)], params));
    }

    /** The text of the groups that are there, joined by AND, and the parameters. */
    method Predicate(expr: Option<FilterExpr>) returns (r: Result<Query, Error>)
      ensures r == match Compiled(en, expr)
                   case Failure(e) => Failure(e)
                   case Success(sql) => Success(Written(sql))
    {
      if expr == None {
        return Success(Query([], []));
      }
      var groups := [(expr.value.ands, KwAnd), (expr.value.ors, KwOr)];
      var query := Query([], []);
      ghost var sql := Sql([], []);
      for g := 0 to |groups|
        invariant query == Written(sql)
        invariant g == 0 ==> sql == Sql([], [])
        invariant g >= 1 ==> Pieces(en, Clauses(expr.value.ands)).Success?
        invariant g == 1 ==> sql == Grouped(Pieces(en, Clauses(expr.value.ands)).value, KwAnd)
        invariant g == 2 ==> Compiled(en, expr) == Success(sql)
      {
        var (clauses, join) := groups[g];
        if clauses == None || clauses.value == [] {
          assert Pieces(en, Clauses(clauses)) == Success([]);
          assert AndThen(sql, Sql([], [])) == sql;
          continue;
        }
        var part := ClauseGroup(clauses.value, join);
        if part.Failure? {
          return Failure(part.error);
        }
        ghost var group := Grouped(Pieces(en, clauses.value).value, join);
        SamePieces(en, clauses.value);
        SpellGroup(Pieces(en, clauses.value).value, join);
        if query.text == [] {
          EmptyText(sql.tokens);
          query := Query(part.value.text, query.params + part.value.params);
          assert AndThen(sql, group).tokens == group.tokens;
        } else {
          SpellAnd(sql, group);
          query := Query(query.text + [Fixed(KwAnd)] + part.value.text, query.params + part.value.params);
        }
        sql := AndThen(sql, group);
      }
      r := Success(query);
    }
  }

  lemma EmptyText(ts: seq<Token>)
    ensures Spell(ts) == [] <==> ts == []
  {
  }
}
