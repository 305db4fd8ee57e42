/**
  The compiler from metadata filters to SQL predicates with positional
  parameters, against the three-valued meaning of the filter. A predicate is a
  list of tokens here; SqlText spells it out and reads it back.
*/
module FilterSql {
  import opened Wrappers
  import opened Decimal

  // ------------------------------------------------------------ filters and rows

  datatype Value = Null | Bool(b: bool) | Int(i: int) | Float(x: real) | Text(s: string) | List(items: seq<Value>)
    | Dict(fields: map<string, Value>)

  /** The canonical operator names; Other is any string that is none of them. */
  datatype Op = OpEq | OpNe | OpGt | OpGe | OpLt | OpLe | OpIn | OpContains | Other(name: string)

  datatype Clause = Clause(field: string, op: Op, value: Value)

  /** None and the empty list both stand for a group that is not there. */
  datatype FilterExpr = FilterExpr(ands: Option<seq<Clause>>, ors: Option<seq<Clause>>)

  datatype Row = Row(columns: map<string, Value>, metadata: map<string, Value>)

  datatype Error = UnsupportedOp(op: Op, field: string)

  datatype Truth = True | False | Unknown

  function And(a: Truth, b: Truth): Truth {
    if a == False || b == False then False else if a == True && b == True then True else Unknown
  }

  function Or(a: Truth, b: Truth): Truth {
    if a == True || b == True then True else if a == False && b == False then False else Unknown
  }

  function Not(a: Truth): Truth {
    match a
    case True => False
    case False => True
    case Unknown => Unknown
  }

  function Holds(b: bool): Truth { if b then True else False }

  /**
    What the database and the host language do with values: the text of a float on
    either side of its decimal point, the text of a JSON list or object, the order
    of two non-null values in a comparison with a column, whether keys are compared
    as JSON escapes them, the item of a JSON list under a bracketed index, full-text
    matching, and the host's str() of anything but texts and integers.
  */
  datatype Engine = Engine(
    float: real -> (string, string),
    json: Value -> string,
    below: (Column, Value, Value) -> bool,
    escapedKeys: bool,
    item: (seq<Value>, string) -> Value,
    matches: (Row, string) -> bool,
    str: Value -> string)

  function FloatText(en: Engine, x: real): string { en.float(x).0 + "." + en.float(x).1 }

  /** CAST(v AS TEXT) of a value that is not null; true and false are 1 and 0. */
  function Cast(en: Engine, v: Value): string {
    match v
    case Text(s) => s
    case Bool(b) => IntText(if b then 1 else 0)
    case Int(i) => IntText(i)
    case Float(x) => FloatText(en, x)
    case _ => en.json(v)
  }

  function Str(en: Engine, v: Value): string {
    match v
    case Text(s) => s
    case Int(i) => IntText(i)
    case _ => en.str(v)
  }

  const REAL_COLUMNS := {"page", "doc_id", "kb_id", "token_count", "version", "edited", "chunk_id"}

  // ------------------------------------------------------------------ SQL predicates

  /** A column of the table, or the value that a JSON path finds in the metadata. */
  datatype Column = Real(name: string) | Json(path: string)

  datatype Step = Label(name: string) | Index(text: string)

  /** The first position from i on that holds one of two characters, or the end. */
  function Find(s: string, i: nat, a: char, b: char): (n: nat)
    requires i <= |s|
    ensures i <= n <= |s| && (n < |s| ==> s[n] == a || s[n] == b)
    ensures forall k :: i <= k < n ==> s[k] != a && s[k] != b
    decreases |s| - i
  {
    if i == |s| || s[i] == a || s[i] == b then i else Find(s, i + 1, a, b)
  }

  /** The steps behind the dollar sign of a JSON path; None where the path is malformed. */
  function StepsFrom(s: string): Option<seq<Step>>
    decreases |s|
  {
    if s == "" then Some([])
    else if s[0] == '.' && |s| > 1 && s[1] == '"' then
      var n := Find(s, 2, '"', '"');
      if n == |s| then None else Ahead(Label(s[2..n]), StepsFrom(s[n + 1..]))
    else if s[0] == '.' then
      var n := Find(s, 1, '.', '[');
      if n == 1 then None else Ahead(Label(s[1..n]), StepsFrom(s[n..]))
    else if s[0] == '[' then
      var n := Find(s, 1, ']', ']');
      if n == |s| then None else Ahead(Index(s[1..n]), StepsFrom(s[n + 1..]))
    else None
  }

  function Ahead(step: Step, rest: Option<seq<Step>>): Option<seq<Step>> {
    if rest == None then None else Some([step] + rest.value)
  }

  function Steps(path: string): Option<seq<Step>> {
    if path == "" || path[0] != '$' then None else StepsFrom(path[1..])
  }

  /** A key character as the host's JSON encoder writes it. */
  function EscapedChar(c: char): string {
    match c
    case '"' => "\\\""
    case '\\' => "\\\\"
    case '\n' => "\\n"
    case '\r' => "\\r"
    case '\t' => "\\t"
    case _ =>
      if c as int == 8 then "\\b"
      else if c as int == 12 then "\\f"
      else if c < ' ' then "\\u00" + [Hex(c as int / 16), Hex(c as int % 16)]
      else [c]
  }

  function Hex(d: nat): char
    requires d < 16
  {
    "0123456789abcdef"[d]
  }

  function Escaped(key: string): string {
    if key == "" then "" else EscapedChar(key[0]) + Escaped(key[1..])
  }

  /** The text that a label is compared with to find a key. */
  function KeyText(en: Engine, key: string): string { if en.escapedKeys then Escaped(key) else key }

  ghost function Member(en: Engine, fields: map<string, Value>, name: string): Value {
    if k :| k in fields && KeyText(en, k) == name then fields[k] else Null
  }

  ghost function Walk(en: Engine, v: Value, steps: seq<Step>): Value
    decreases steps
  {
    if steps == [] then v
    else
      match steps[0]
      case Label(k) => if v.Dict? then Walk(en, Member(en, v.fields, k), steps[1..]) else Null
      case Index(t) => if v.List? then Walk(en, en.item(v.items, t), steps[1..]) else Null
  }

  predicate Readable(col: Column) { col.Json? ==> Steps(col.path).Some? }

  datatype Comparison = Gt | Ge | Lt | Le

  /** A comparison with as many ? placeholders as it takes parameters. */
  datatype Atom =
    | CastEq(col: Column)
    | CastNe(col: Column)
    | Compare(col: Column, cmp: Comparison)
    | CastIn(col: Column, arity: nat)
    | CastLike(col: Column)
    | Match

  datatype Token = Open | Close | KwAnd | KwOr | Of(atom: Atom)

  function Arity(a: Atom): nat { if a.CastIn? then a.arity else 1 }

  /** What the database reads under a column. */
  ghost function Extracted(en: Engine, row: Row, col: Column): Value
    requires Readable(col)
  {
    match col
    case Real(f) => if f in row.columns then row.columns[f] else Null
    case Json(path) => Walk(en, Dict(row.metadata), Steps(path).value)
  }

  function SqlEq(en: Engine, a: Value, b: Value): Truth {
    if a == Null || b == Null then Unknown else Holds(Cast(en, a) == Cast(en, b))
  }

  function SqlCompare(en: Engine, col: Column, cmp: Comparison, a: Value, b: Value): Truth {
    if a == Null || b == Null then Unknown
    else
      match cmp
      case Gt => Holds(en.below(col, b, a))
      case Ge => Holds(!en.below(col, a, b))
      case Lt => Holds(en.below(col, a, b))
      case Le => Holds(!en.below(col, b, a))
  }

  /** x IN (p1, ..., pn) is the disjunction of x = pi, false when there are none. */
  function SqlIn(en: Engine, a: Value, ps: seq<Value>): Truth {
    if ps == [] then False else Or(SqlEq(en, a, ps[0]), SqlIn(en, a, ps[1..]))
  }

  /** Case folding as LIKE does it, for ASCII letters only. */
  function FoldCase(c: char): char { if 'A' <= c <= 'Z' then c + 32 as char else c }

  /** LIKE without an escape character: % stands for any text, _ for any character. */
  predicate Like(pattern: string, s: string)
    decreases |pattern| + |s|
  {
    if pattern == "" then s == ""
    else if pattern[0] == '%' then Like(pattern[1..], s) || (s != "" && Like(pattern, s[1..]))
    else s != "" && (pattern[0] == '_' || FoldCase(pattern[0]) == FoldCase(s[0])) && Like(pattern[1..], s[1..])
  }

  function SqlLike(en: Engine, a: Value, p: Value): Truth {
    if a == Null || p == Null then Unknown else Holds(Like(Cast(en, p), Cast(en, a)))
  }

  predicate Sound(a: Atom) { a.Match? || Readable(a.col) }

  /** What a comparison comes to on the value of its column. */
  function Compared(en: Engine, a: Atom, v: Value, ps: seq<Value>): Truth
    requires |ps| == Arity(a) && !a.Match?
  {
    match a
    case CastEq(_) => SqlEq(en, v, ps[0])
    case CastNe(_) => Not(SqlEq(en, v, ps[0]))
    case Compare(c, cmp) => SqlCompare(en, c, cmp, v, ps[0])
    case CastIn(_, _) => SqlIn(en, v, ps)
    case CastLike(_) => SqlLike(en, v, ps[0])
  }

  ghost function EvalAtom(en: Engine, row: Row, a: Atom, ps: seq<Value>): Truth
    requires |ps| == Arity(a) && Sound(a)
  {
    if a.Match? then if ps[0] == Null then Unknown else Holds(en.matches(row, Cast(en, ps[0])))
    else Compared(en, a, Extracted(en, row, a.col), ps)
  }

  // ------------------------------------------- parsing: AND binds tighter than OR

  datatype Expr = Leaf(atom: Atom) | Both(left: Expr, right: Expr) | Either(left: Expr, right: Expr)

  /** An expression read from a position on, and the position after it. */
  datatype Parsed = Fail | Got(expr: Expr, next: nat)

  function ParseOr(ts: seq<Token>, i: nat): (p: Parsed)
    requires i <= |ts|
    ensures p.Got? ==> i < p.next <= |ts|
    decreases |ts| - i, 2
  {
    var l := ParseAnd(ts, i);
    if l.Got? && l.next < |ts| && ts[l.next] == KwOr then
      var r := ParseOr(ts, l.next + 1);
      if r.Got? then Got(Either(l.expr, r.expr), r.next) else Fail
    else l
  }

  function ParseAnd(ts: seq<Token>, i: nat): (p: Parsed)
    requires i <= |ts|
    ensures p.Got? ==> i < p.next <= |ts|
    decreases |ts| - i, 1
  {
    var l := ParsePrimary(ts, i);
    if l.Got? && l.next < |ts| && ts[l.next] == KwAnd then
      var r := ParseAnd(ts, l.next + 1);
      if r.Got? then Got(Both(l.expr, r.expr), r.next) else Fail
    else l
  }

  function ParsePrimary(ts: seq<Token>, i: nat): (p: Parsed)
    requires i <= |ts|
    ensures p.Got? ==> i < p.next <= |ts|
    decreases |ts| - i, 0
  {
    if i == |ts| then Fail
    else
      match ts[i]
      case Of(a) => Got(Leaf(a), i + 1)
      case Open =>
        var inner := ParseOr(ts, i + 1);
        if inner.Got? && inner.next < |ts| && ts[inner.next] == Close then Got(inner.expr, inner.next + 1) else Fail
      case _ => Fail
  }

  /**
    The value of an expression, and the parameters left when its placeholders have
    taken theirs from the left; Stuck when parameters run out or a path is malformed.
  */
  datatype Valued = Stuck | Value3(truth: Truth, rest: seq<Value>)

  ghost function Eval(en: Engine, row: Row, e: Expr, ps: seq<Value>): Valued {
    match e
    case Leaf(a) =>
      if Arity(a) <= |ps| && Sound(a) then Value3(EvalAtom(en, row, a, ps[..Arity(a)]), ps[Arity(a)..]) else Stuck
    case Both(l, r) =>
      var x := Eval(en, row, l, ps);
      if x == Stuck then Stuck
      else var y := Eval(en, row, r, x.rest); if y == Stuck then Stuck else Value3(And(x.truth, y.truth), y.rest)
    case Either(l, r) =>
      var x := Eval(en, row, l, ps);
      if x == Stuck then Stuck
      else var y := Eval(en, row, r, x.rest); if y == Stuck then Stuck else Value3(Or(x.truth, y.truth), y.rest)
  }

  // ---------------------------------------------------------------- the compiler

  function FieldSql(field: string): Column {
    if field in REAL_COLUMNS then Real(field) else Json("$." + field)
  }

  /** float() of a number or a boolean, anything else as it is. */
  function AsFloat(v: Value): Value {
    match v
    case Bool(b) => Float(if b then 1.0 else 0.0)
    case Int(i) => Float(i as real)
    case _ => v
  }

  function Listed(v: Value): seq<Value> { if v.List? then v.items else [v] }

  function Strs(en: Engine, vs: seq<Value>): seq<Value> {
    seq(|vs|, i requires 0 <= i < |vs| => Text(Str(en, vs[i])))
  }

  datatype Piece = Piece(atom: Atom, params: seq<Value>)

  function ClauseSql(en: Engine, c: Clause): Result<Piece, Error> {
    var col := FieldSql(c.field);
    match c.op
    case OpEq => Success(Piece(CastEq(col), [c.value]))
    case OpNe => Success(Piece(CastNe(col), [c.value]))
    case OpGt => Success(Piece(Compare(col, Gt), [AsFloat(c.value)]))
    case OpGe => Success(Piece(Compare(col, Ge), [AsFloat(c.value)]))
    case OpLt => Success(Piece(Compare(col, Lt), [AsFloat(c.value)]))
    case OpLe => Success(Piece(Compare(col, Le), [AsFloat(c.value)]))
    case OpIn => Success(Piece(CastIn(col, |Listed(c.value)|), Strs(en, Listed(c.value))))
    case OpContains => Success(Piece(CastLike(col), [Text("%" + Str(en, c.value) + "%")]))
    case Other(_) => Failure(UnsupportedOp(c.op, c.field))
  }

  /** SQL text as tokens, and its positional parameters. */
  datatype Sql = Sql(tokens: seq<Token>, params: seq<Value>)

  function Joined(pieces: seq<Piece>, join: Token): seq<Token> {
    if pieces == [] then []
    else if |pieces| == 1 then [Of(pieces[0].atom)]
    else [Of(pieces[0].atom), join] + Joined(pieces[1..], join)
  }

  function AllParams(pieces: seq<Piece>): seq<Value> {
    if pieces == [] then [] else pieces[0].params + AllParams(pieces[1..])
  }

  /** The pieces of a group, or the error of its first unsupported clause. */
  function Pieces(en: Engine, cs: seq<Clause>): Result<seq<Piece>, Error> {
    if cs == [] then Success([])
    else
      match ClauseSql(en, cs[0])
      case Failure(e) => Failure(e)
      case Success(p) =>
        match Pieces(en, cs[1..])
        case Failure(e) => Failure(e)
        case Success(ps) => Success([p] + ps)
  }

  function Grouped(pieces: seq<Piece>, join: Token): Sql {
    if pieces == [] then Sql([], AllParams(pieces))
    else Sql([Open] + Joined(pieces, join) + [Close], AllParams(pieces))
  }

  function Clauses(g: Option<seq<Clause>>): seq<Clause> { if g.Some? then g.value else [] }

  /** Groups that are there, joined by AND. */
  function AndThen(a: Sql, b: Sql): Sql {
    Sql(a.tokens + (if a.tokens != [] && b.tokens != [] then [KwAnd] else []) + b.tokens, a.params + b.params)
  }

  function Compiled(en: Engine, f: Option<FilterExpr>): Result<Sql, Error> {
    if f == None then Success(Sql([], []))
    else
      match Pieces(en, Clauses(f.value.ands))
      case Failure(e) => Failure(e)
      case Success(ands) =>
        match Pieces(en, Clauses(f.value.ors))
        case Failure(e) => Failure(e)
        case Success(ors) => Success(AndThen(Grouped(ands, KwAnd), Grouped(ors, KwOr)))
  }

  // ------------------------------------------------------- the meaning of a filter

  /** The value of a field: a column of the row, else the metadata under that very key. */
  function FieldValue(row: Row, field: string): Value {
    if field in REAL_COLUMNS then if field in row.columns then row.columns[field] else Null
    else if field in row.metadata then row.metadata[field] else Null
  }

  /** The fields of a row as the filter language names them. */
  function Own(row: Row): string -> Value { field => FieldValue(row, field) }

  predicate FieldReadable(field: string) { Readable(FieldSql(field)) }

  /** The fields of a row as the database reads them: columns, and what the paths find. */
  ghost function AsRead(en: Engine, row: Row): string -> Value {
    field => if FieldReadable(field) then Extracted(en, row, FieldSql(field)) else Null
  }

  /** What a clause says of the value of its field, in the filter language's own terms. */
  ghost function Meaning(en: Engine, v: Value, c: Clause): Truth {
    match c.op
    case OpIn =>
      if Listed(c.value) == [] then False
      else if v == Null then Unknown
      else Holds(exists i :: 0 <= i < |Listed(c.value)| && Cast(en, v) == Str(en, Listed(c.value)[i]))
    case OpContains =>
      if v == Null then Unknown else Holds(Like("%" + Str(en, c.value) + "%", Cast(en, v)))
    case _ =>
      if v == Null || c.value == Null then Unknown
      else
        match c.op
        case OpEq => Holds(Cast(en, v) == Cast(en, c.value))
        case OpNe => Holds(Cast(en, v) != Cast(en, c.value))
        case OpGt => Holds(en.below(FieldSql(c.field), AsFloat(c.value), v))
        case OpGe => Holds(!en.below(FieldSql(c.field), v, AsFloat(c.value)))
        case OpLt => Holds(en.below(FieldSql(c.field), v, AsFloat(c.value)))
        case OpLe => Holds(!en.below(FieldSql(c.field), AsFloat(c.value), v))
        case _ => Unknown
  }

  ghost function AllOf(en: Engine, look: string -> Value, cs: seq<Clause>): Truth {
    if cs == [] then True else And(Meaning(en, look(cs[0].field), cs[0]), AllOf(en, look, cs[1..]))
  }

  ghost function AnyOf(en: Engine, look: string -> Value, cs: seq<Clause>): Truth {
    if cs == [] then False else Or(Meaning(en, look(cs[0].field), cs[0]), AnyOf(en, look, cs[1..]))
  }

  /** What a filter says of the values of its fields; a missing group constrains nothing. */
  ghost function FilterMeaning(en: Engine, look: string -> Value, f: Option<FilterExpr>): Truth {
    if f == None then True
    else
      var ors := Clauses(f.value.ors);
      And(AllOf(en, look, Clauses(f.value.ands)), if ors == [] then True else AnyOf(en, look, ors))
  }

  // ------------------------------------------------- which fields can be addressed

  /** Behind "$." the name is one label of a JSON path. */
  predicate OneLabel(field: string) {
    field != "" && field[0] != '"' && '.' !in field && '[' !in field
  }

  /** Between single quotes the name is the content of one SQL literal. */
  predicate Quotable(field: string) {
    '\'' !in field && '\0' !in field
  }

  /** JSON writes the character as it is. */
  predicate PlainChar(c: char) { c >= ' ' && c != '"' && c != '\\' }

  predicate PlainText(s: string) { forall c :: c in s ==> PlainChar(c) }

  /** The text that the key is found under is the key itself. */
  predicate Verbatim(en: Engine, key: string) {
    en.escapedKeys ==> PlainText(key)
  }

  predicate Addressable(en: Engine, field: string) {
    field in REAL_COLUMNS || (OneLabel(field) && Verbatim(en, field) && Quotable(field))
  }

  predicate AllAddressable(en: Engine, cs: seq<Clause>) {
    forall c :: c in cs ==> Addressable(en, c.field)
  }

  /** All fields of a filter can be addressed. */
  predicate FilterAddressable(en: Engine, f: Option<FilterExpr>) {
    f.Some? ==> AllAddressable(en, Clauses(f.value.ands)) && AllAddressable(en, Clauses(f.value.ors))
  }

  predicate AllReadable(cs: seq<Clause>) {
    forall c :: c in cs ==> FieldReadable(c.field)
  }

  /** No field of a filter is a malformed path. */
  predicate FilterReadable(f: Option<FilterExpr>) {
    f.Some? ==> AllReadable(Clauses(f.value.ands)) && AllReadable(Clauses(f.value.ors))
  }

  lemma EscapedCharSpec(c: char)
    ensures if PlainChar(c) then EscapedChar(c) == [c] else |EscapedChar(c)| >= 2 && EscapedChar(c)[0] == '\\'
  {
  }

  lemma {:induction false} EscapedPlain(key: string)
    requires PlainText(key)
    ensures Escaped(key) == key
  {
    if key != "" {
      EscapedCharSpec(key[0]);
      EscapedPlain(key[1..]);
    }
  }

  /** Escaping leaves its mark on any other text. */
  lemma {:induction false} EscapedOther(key: string)
    requires !PlainText(key)
    ensures |Escaped(key)| > |key| && '\\' in Escaped(key)
  {
    EscapedCharSpec(key[0]);
    assert key == [key[0]] + key[1..];
    if PlainText(key[1..]) {
      EscapedPlain(key[1..]);
      assert EscapedChar(key[0])[0] in Escaped(key);
    } else {
      EscapedOther(key[1..]);
    }
  }

  lemma KeyTextLonger(en: Engine, key: string)
    ensures |KeyText(en, key)| >= |key|
    ensures KeyText(en, key) == key <==> Verbatim(en, key)
  {
    if PlainText(key) { EscapedPlain(key); } else { EscapedOther(key); }
  }

  /** A key that is found under its own text is found there alone. */
  lemma MemberVerbatim(en: Engine, fields: map<string, Value>, key: string)
    requires Verbatim(en, key)
    ensures Member(en, fields, key) == if key in fields then fields[key] else Null
  {
    KeyTextLonger(en, key);
    forall k | k in fields && KeyText(en, k) == key ensures k == key {
      if PlainText(k) { EscapedPlain(k); } else { EscapedOther(k); }
    }
  }

  /** The steps are malformed or start with a label shorter than the field. */
  ghost predicate Elsewhere(steps: Option<seq<Step>>, field: string) {
    steps.Some? ==> steps.value != [] && steps.value[0].Label? && |steps.value[0].name| < |field|
  }

  lemma AheadElsewhere(name: string, rest: Option<seq<Step>>, field: string)
    requires |name| < |field|
    ensures Elsewhere(Ahead(Label(name), rest), field)
  {
  }

  lemma QuotedElsewhere(field: string)
    requires field != "" && field[0] == '"'
    ensures Elsewhere(StepsFrom("." + field), field)
  {
    var s := "." + field;
    assert s[1] == field[0];
    var n := Find(s, 2, '"', '"');
    if n < |s| { AheadElsewhere(s[2..n], StepsFrom(s[n + 1..]), field); }
  }

  lemma SplitElsewhere(field: string)
    requires field != "" && field[0] != '"' && !OneLabel(field)
    ensures Elsewhere(StepsFrom("." + field), field)
  {
    var s := "." + field;
    var n := Find(s, 1, '.', '[');
    assert s[1] == field[0];
    if n == |s| {
      assert forall k :: 0 <= k < |field| ==> field[k] == s[k + 1] && field[k] != '.' && field[k] != '[';
    } else if n > 1 {
      AheadElsewhere(s[1..n], StepsFrom(s[n..]), field);
    }
  }

  lemma WholeLabel(field: string)
    requires OneLabel(field)
    ensures StepsFrom("." + field) == Some([Label(field)])
  {
    var s := "." + field;
    var n := Find(s, 1, '.', '[');
    assert s[1] == field[0];
    assert forall k :: 1 <= k < |s| ==> s[k] == field[k - 1];
    assert n == |s| && s[1..n] == field && s[n..] == "";
    assert StepsFrom("") == Some([]);
    assert StepsFrom(s) == Ahead(Label(s[1..n]), StepsFrom(s[n..]));
    var none: seq<Step> := [];
    assert [Label(field)] + none == [Label(field)];
  }

  /** A name is the one label of its path exactly when it has no separator and no leading double quote. */
  lemma PathIff(field: string)
    ensures Steps("$." + field) == Some([Label(field)]) <==> OneLabel(field)
    ensures !OneLabel(field) ==> Elsewhere(Steps("$." + field), field)
  {
    assert ("$." + field)[1..] == "." + field;
    if OneLabel(field) {
      WholeLabel(field);
    } else if field == "" {
      assert StepsFrom(".") == None;
    } else if field[0] == '"' {
      QuotedElsewhere(field);
    } else {
      SplitElsewhere(field);
    }
  }

  /** A path that is one verbatim label finds the row's own value. */
  lemma LabelFinds(en: Engine, row: Row, field: string)
    requires field !in REAL_COLUMNS && OneLabel(field) && Verbatim(en, field)
    ensures FieldReadable(field) && AsRead(en, row)(field) == Own(row)(field)
  {
    PathIff(field);
    OneStep(en, Dict(row.metadata), field);
    MemberVerbatim(en, row.metadata, field);
  }

  function RowWith(field: string): Row { Row(map[], map[field := Text("x")]) }

  /** Any other path does not find the one key of a row that is the field. */
  lemma LabelMisses(en: Engine, field: string)
    requires field !in REAL_COLUMNS && FieldReadable(field) && !(OneLabel(field) && Verbatim(en, field))
    ensures AsRead(en, RowWith(field))(field) == Null
  {
    PathIff(field);
    KeyTextLonger(en, field);
    var fields, steps := RowWith(field).metadata, Steps("$." + field).value;
    assert steps[0].Label? && KeyText(en, field) != steps[0].name;
    assert forall k :: k in fields ==> k == field;
    assert Member(en, fields, steps[0].name) == Null;
    WalkNull(en, steps[1..]);
    assert Walk(en, Dict(fields), steps) == Null;
  }

  lemma WalkNull(en: Engine, steps: seq<Step>)
    ensures Walk(en, Null, steps) == Null
  {
  }

  /**
    The database reads a field's own value in every row exactly when the field is a
    column, or one label that is compared as it stands.
  */
  lemma FieldIff(en: Engine, field: string)
    ensures field in REAL_COLUMNS || (OneLabel(field) && Verbatim(en, field))
      <==> FieldReadable(field) && forall row :: AsRead(en, row)(field) == Own(row)(field)
  {
    if field !in REAL_COLUMNS {
      if OneLabel(field) && Verbatim(en, field) {
        forall row ensures FieldReadable(field) && AsRead(en, row)(field) == Own(row)(field) {
          LabelFinds(en, row, field);
        }
        LabelFinds(en, RowWith(field), field);
      } else if FieldReadable(field) {
        LabelMisses(en, field);
        assert Own(RowWith(field))(field) == Text("x");
      }
    }
  }

  lemma OneStep(en: Engine, v: Value, k: string)
    ensures Walk(en, v, [Label(k)]) == if v.Dict? then Member(en, v.fields, k) else Null
  {
    assert [Label(k)][1..] == [];
  }

  // -------------------------------------------------------------- correctness

  lemma {:induction false} SqlInSpec(en: Engine, a: Value, vs: seq<Value>)
    ensures SqlIn(en, a, Strs(en, vs))
      == if vs == [] then False
         else if a == Null then Unknown
         else Holds(exists i :: 0 <= i < |vs| && Cast(en, a) == Str(en, vs[i]))
  {
    if vs != [] {
      SqlInSpec(en, a, vs[1..]);
      assert Strs(en, vs)[1..] == Strs(en, vs[1..]);
      assert forall i :: 0 <= i < |vs[1..]| ==> vs[1..][i] == vs[i + 1];
      if a != Null && exists i :: 0 <= i < |vs| && Cast(en, a) == Str(en, vs[i]) {
        var i :| 0 <= i < |vs| && Cast(en, a) == Str(en, vs[i]);
        if i > 0 { assert vs[1..][i - 1] == vs[i]; }
      }
    }
  }

  lemma ClauseCompiles(en: Engine, c: Clause)
    ensures ClauseSql(en, c).Success? <==> !c.op.Other?
  {
  }

  lemma ClauseColumn(en: Engine, c: Clause)
    requires ClauseSql(en, c).Success?
    ensures var p := ClauseSql(en, c).value;
      !p.atom.Match? && p.atom.col == FieldSql(c.field) && |p.params| == Arity(p.atom)
  {
  }

  lemma EqualMeaning(en: Engine, v: Value, c: Clause)
    requires c.op in {OpEq, OpNe}
    ensures var p := ClauseSql(en, c).value; Compared(en, p.atom, v, p.params) == Meaning(en, v, c)
  {
  }

  lemma OrderMeaning(en: Engine, v: Value, c: Clause)
    requires c.op in {OpGt, OpGe, OpLt, OpLe}
    ensures var p := ClauseSql(en, c).value; Compared(en, p.atom, v, p.params) == Meaning(en, v, c)
  {
    assert AsFloat(c.value) == Null <==> c.value == Null;
  }

  /** What a compiled comparison comes to on a value is what the clause says of that value. */
  lemma ComparedMeaning(en: Engine, v: Value, c: Clause)
    requires ClauseSql(en, c).Success?
    ensures var p := ClauseSql(en, c).value; Compared(en, p.atom, v, p.params) == Meaning(en, v, c)
  {
    if c.op.OpIn? {
      SqlInSpec(en, v, Listed(c.value));
    } else if c.op in {OpEq, OpNe} {
      EqualMeaning(en, v, c);
    } else if c.op in {OpGt, OpGe, OpLt, OpLe} {
      OrderMeaning(en, v, c);
    }
  }

  /**
    A compiled clause takes exactly its own parameters, can be evaluated exactly
    when its field's path is well formed, and then means what the clause means of
    the value that the database reads.
  */
  lemma ClauseMeaning(en: Engine, row: Row, c: Clause)
    requires ClauseSql(en, c).Success?
    ensures var p := ClauseSql(en, c).value;
      && |p.params| == Arity(p.atom) && (Sound(p.atom) <==> FieldReadable(c.field))
      && (Sound(p.atom) ==> EvalAtom(en, row, p.atom, p.params) == Meaning(en, AsRead(en, row)(c.field), c))
  {
    ClauseColumn(en, c);
    if FieldReadable(c.field) {
      assert AsRead(en, row)(c.field) == Extracted(en, row, FieldSql(c.field));
      ComparedMeaning(en, AsRead(en, row)(c.field), c);
    }
  }

  /** The right-nested expression that a joined list of atoms parses to. */
  function Chain(pieces: seq<Piece>, join: Token): Expr
    requires pieces != []
  {
    var leaf := Leaf(pieces[0].atom);
    if |pieces| == 1 then leaf
    else if join == KwAnd then Both(leaf, Chain(pieces[1..], join))
    else Either(leaf, Chain(pieces[1..], join))
  }

  /** sub stands in ts from position i on. */
  ghost predicate StandsAt(ts: seq<Token>, i: nat, sub: seq<Token>) {
    i + |sub| <= |ts| && forall k :: 0 <= k < |sub| ==> ts[i + k] == sub[k]
  }

  /** An atom before anything but AND is a conjunction of its own. */
  lemma AtomParse(ts: seq<Token>, i: nat, a: Atom)
    requires i + 1 < |ts| && ts[i] == Of(a) && ts[i + 1] != KwAnd
    ensures ParseAnd(ts, i) == Got(Leaf(a), i + 1)
  {
  }

  lemma AndParse(ts: seq<Token>, i: nat, a: Atom, r: Expr, n: nat)
    requires i + 1 < |ts| && ts[i] == Of(a) && ts[i + 1] == KwAnd && ParseAnd(ts, i + 2) == Got(r, n)
    ensures ParseAnd(ts, i) == Got(Both(Leaf(a), r), n)
  {
  }

  /** A conjunction before anything but OR is a disjunction of its own. */
  lemma ClosedParse(ts: seq<Token>, i: nat, e: Expr, n: nat)
    requires i <= |ts| && ParseAnd(ts, i) == Got(e, n) && n < |ts| && ts[n] != KwOr
    ensures ParseOr(ts, i) == Got(e, n)
  {
  }

  lemma OrParse(ts: seq<Token>, i: nat, e: Expr, m: nat, r: Expr, n: nat)
    requires i <= |ts| && ParseAnd(ts, i) == Got(e, m) && m < |ts| && ts[m] == KwOr && ParseOr(ts, m + 1) == Got(r, n)
    ensures ParseOr(ts, i) == Got(Either(e, r), n)
  {
  }

  lemma {:induction false} ParseJoined(ts: seq<Token>, i: nat, pieces: seq<Piece>, join: Token)
    requires pieces != [] && join in {KwAnd, KwOr}
    requires StandsAt(ts, i, Joined(pieces, join) + [Close])
    ensures join == KwAnd ==> ParseAnd(ts, i) == Got(Chain(pieces, join), i + |Joined(pieces, join)|)
    ensures ParseOr(ts, i) == Got(Chain(pieces, join), i + |Joined(pieces, join)|)
    decreases pieces
  {
    var a := pieces[0].atom;
    JoinedEnds(ts, i, pieces, join);
    if |pieces| == 1 {
      AtomParse(ts, i, a);
      ClosedParse(ts, i, Leaf(a), i + 1);
    } else {
      JoinedStands(ts, i, pieces, join);
      ParseJoined(ts, i + 2, pieces[1..], join);
      var r, n := Chain(pieces[1..], join), i + |Joined(pieces, join)|;
      if join == KwAnd {
        AndParse(ts, i, a, r, n);
        ClosedParse(ts, i, Both(Leaf(a), r), n);
      } else {
        AtomParse(ts, i, a);
        OrParse(ts, i, Leaf(a), i + 1, r, n);
      }
    }
  }

  /** The first two tokens and the last of a joined list. */
  lemma JoinedEnds(ts: seq<Token>, i: nat, pieces: seq<Piece>, join: Token)
    requires pieces != [] && StandsAt(ts, i, Joined(pieces, join) + [Close])
    ensures var n := |Joined(pieces, join)|;
      && i + n < |ts| && ts[i] == Of(pieces[0].atom) && ts[i + n] == Close
      && (if |pieces| == 1 then n == 1 else n == |Joined(pieces[1..], join)| + 2 && ts[i + 1] == join)
  {
    var sub := Joined(pieces, join) + [Close];
    assert ts[i + 0] == sub[0] && ts[i + 1] == sub[1] && ts[i + (|sub| - 1)] == sub[|sub| - 1];
  }

  lemma JoinedStands(ts: seq<Token>, i: nat, pieces: seq<Piece>, join: Token)
    requires |pieces| > 1 && StandsAt(ts, i, Joined(pieces, join) + [Close])
    ensures StandsAt(ts, i + 2, Joined(pieces[1..], join) + [Close])
  {
    var sub, tail := Joined(pieces, join) + [Close], Joined(pieces[1..], join) + [Close];
    assert sub == [Of(pieces[0].atom), join] + tail;
    forall k | 0 <= k < |tail| ensures ts[i + 2 + k] == tail[k] {
      assert ts[i + (k + 2)] == sub[k + 2];
    }
  }

  lemma Parenthesised(ts: seq<Token>, i: nat, e: Expr, n: nat)
    requires i < |ts| && ts[i] == Open && ParseOr(ts, i + 1) == Got(e, n)
    requires n < |ts| && ts[n] == Close
    ensures ParsePrimary(ts, i) == Got(e, n + 1)
  {
  }

  lemma GroupStands(ts: seq<Token>, i: nat, inner: seq<Token>)
    requires StandsAt(ts, i, [Open] + inner + [Close])
    ensures ts[i] == Open && StandsAt(ts, i + 1, inner + [Close]) && ts[i + 1 + |inner|] == Close
  {
    var sub, tail := [Open] + inner + [Close], inner + [Close];
    assert ts[i + 0] == sub[0] && ts[i + (|inner| + 1)] == sub[|inner| + 1];
    forall k | 0 <= k < |tail| ensures ts[i + 1 + k] == tail[k] {
      assert ts[i + (k + 1)] == sub[k + 1];
    }
  }

  /** A group is one primary, whatever stands around it. */
  lemma ParseGroup(ts: seq<Token>, i: nat, pieces: seq<Piece>, join: Token)
    requires pieces != [] && join in {KwAnd, KwOr}
    requires StandsAt(ts, i, Grouped(pieces, join).tokens)
    ensures ParsePrimary(ts, i) == Got(Chain(pieces, join), i + |Grouped(pieces, join).tokens|)
  {
    var inner := Joined(pieces, join);
    GroupStands(ts, i, inner);
    ParseJoined(ts, i + 1, pieces, join);
    Parenthesised(ts, i, Chain(pieces, join), i + 1 + |inner|);
  }

  /** A primary, AND, and a conjunction that runs to the end. */
  lemma AndMore(ts: seq<Token>, i: nat, e: Expr, m: nat, r: Expr)
    requires i <= |ts| && ParsePrimary(ts, i) == Got(e, m)
    requires m < |ts| && ts[m] == KwAnd && ParseAnd(ts, m + 1) == Got(r, |ts|)
    ensures ParseAnd(ts, i) == ParseOr(ts, i) == Got(Both(e, r), |ts|)
  {
  }

  lemma Around(ts: seq<Token>, i: nat, a: seq<Token>, t: Token, o: seq<Token>)
    requires StandsAt(ts, i, a + [t] + o)
    ensures StandsAt(ts, i, a) && ts[i + |a|] == t && StandsAt(ts, i + |a| + 1, o)
  {
    var sub := a + [t] + o;
    forall k | 0 <= k < |a| ensures ts[i + k] == a[k] {
      assert ts[i + k] == sub[k];
    }
    assert ts[i + |a|] == sub[|a|];
    forall k | 0 <= k < |o| ensures ts[i + |a| + 1 + k] == o[k] {
      assert ts[i + (|a| + 1 + k)] == sub[|a| + 1 + k];
    }
  }

  /** A predicate of one group at the end of the tokens. */
  lemma ParseOne(ts: seq<Token>, i: nat, pieces: seq<Piece>, join: Token)
    requires pieces != [] && join in {KwAnd, KwOr}
    requires StandsAt(ts, i, Grouped(pieces, join).tokens) && i + |Grouped(pieces, join).tokens| == |ts|
    ensures ParseAnd(ts, i) == ParseOr(ts, i) == Got(Chain(pieces, join), |ts|)
  {
    ParseGroup(ts, i, pieces, join);
  }

  /** A predicate of two groups at the end of the tokens. */
  lemma ParseTwo(ts: seq<Token>, i: nat, ands: seq<Piece>, ors: seq<Piece>)
    requires ands != [] && ors != []
    requires var sub := AndThen(Grouped(ands, KwAnd), Grouped(ors, KwOr)).tokens;
      StandsAt(ts, i, sub) && i + |sub| == |ts|
    ensures ParseAnd(ts, i) == ParseOr(ts, i) == Got(Both(Chain(ands, KwAnd), Chain(ors, KwOr)), |ts|)
  {
    var a, o := Grouped(ands, KwAnd).tokens, Grouped(ors, KwOr).tokens;
    var sub := AndThen(Grouped(ands, KwAnd), Grouped(ors, KwOr)).tokens;
    assert sub == a + [KwAnd] + o;
    Around(ts, i, a, KwAnd, o);
    ParseGroup(ts, i, ands, KwAnd);
    ParseOne(ts, i + |a| + 1, ors, KwOr);
    AndMore(ts, i, Chain(ands, KwAnd), i + |a|, Chain(ors, KwOr));
  }

  /** The expression that a compiled filter stands for. */
  function Whole(ands: seq<Piece>, ors: seq<Piece>): Expr
    requires ands != [] || ors != []
  {
    if ors == [] then Chain(ands, KwAnd)
    else if ands == [] then Chain(ors, KwOr)
    else Both(Chain(ands, KwAnd), Chain(ors, KwOr))
  }

  lemma ParseWhole(ts: seq<Token>, i: nat, ands: seq<Piece>, ors: seq<Piece>)
    requires ands != [] || ors != []
    requires var sub := AndThen(Grouped(ands, KwAnd), Grouped(ors, KwOr)).tokens;
      StandsAt(ts, i, sub) && i + |sub| == |ts|
    ensures ParseAnd(ts, i) == ParseOr(ts, i) == Got(Whole(ands, ors), |ts|)
  {
    var ga, go := Grouped(ands, KwAnd), Grouped(ors, KwOr);
    if ors == [] {
      assert AndThen(ga, go).tokens == ga.tokens;
      ParseOne(ts, i, ands, KwAnd);
    } else if ands == [] {
      assert AndThen(ga, go).tokens == go.tokens;
      ParseOne(ts, i, ors, KwOr);
    } else {
      ParseTwo(ts, i, ands, ors);
    }
  }

  /** Every piece brings as many parameters as its atom takes. */
  ghost predicate Fits(pieces: seq<Piece>) {
    forall i :: 0 <= i < |pieces| ==> |pieces[i].params| == Arity(pieces[i].atom)
  }

  ghost predicate AllSound(pieces: seq<Piece>) {
    forall i :: 0 <= i < |pieces| ==> Sound(pieces[i].atom)
  }

  ghost function Fold(en: Engine, row: Row, pieces: seq<Piece>, join: Token): Truth
    requires pieces != [] && Fits(pieces) && AllSound(pieces)
  {
    var x := EvalAtom(en, row, pieces[0].atom, pieces[0].params);
    if |pieces| == 1 then x
    else if join == KwAnd then And(x, Fold(en, row, pieces[1..], join))
    else Or(x, Fold(en, row, pieces[1..], join))
  }

  lemma {:induction false} EvalChain(en: Engine, row: Row, pieces: seq<Piece>, join: Token, rest: seq<Value>)
    requires pieces != [] && Fits(pieces)
    ensures Eval(en, row, Chain(pieces, join), AllParams(pieces) + rest)
            == if AllSound(pieces) then Value3(Fold(en, row, pieces, join), rest) else Stuck
  {
    var p := pieces[0];
    var ps := AllParams(pieces) + rest;
    var later := AllParams(pieces[1..]) + rest;
    assert ps == p.params + later;
    assert ps[..Arity(p.atom)] == p.params && ps[Arity(p.atom)..] == later;
    if |pieces| == 1 {
      assert later == rest;
    } else {
      EvalChain(en, row, pieces[1..], join, rest);
      assert AllSound(pieces) <==> Sound(p.atom) && AllSound(pieces[1..]) by {
        assert forall i :: 1 <= i < |pieces| ==> pieces[i] == pieces[1..][i - 1];
      }
    }
  }

  lemma {:induction false} PiecesReadable(en: Engine, cs: seq<Clause>)
    requires Pieces(en, cs).Success?
    ensures var ps := Pieces(en, cs).value;
      |ps| == |cs| && Fits(ps) && (AllSound(ps) <==> AllReadable(cs))
  {
    if cs != [] {
      ClauseColumn(en, cs[0]);
      PiecesReadable(en, cs[1..]);
      var ps := Pieces(en, cs).value;
      assert ps == [ps[0]] + Pieces(en, cs[1..]).value && cs == [cs[0]] + cs[1..];
      assert AllSound(ps) <==> Sound(ps[0].atom) && AllSound(ps[1..]) by {
        assert forall i :: 1 <= i < |ps| ==> ps[i] == ps[1..][i - 1];
      }
    }
  }

  lemma {:induction false} PiecesMeaning(en: Engine, row: Row, cs: seq<Clause>)
    requires Pieces(en, cs).Success? && AllReadable(cs) && cs != []
    ensures var ps := Pieces(en, cs).value;
      && ps != [] && Fits(ps) && AllSound(ps)
      && Fold(en, row, ps, KwAnd) == AllOf(en, AsRead(en, row), cs)
      && Fold(en, row, ps, KwOr) == AnyOf(en, AsRead(en, row), cs)
  {
    PiecesReadable(en, cs);
    ClauseMeaning(en, row, cs[0]);
    assert FieldReadable(cs[0].field);
    var ps := Pieces(en, cs).value;
    assert ps[1..] == Pieces(en, cs[1..]).value;
    if |cs| > 1 { PiecesMeaning(en, row, cs[1..]); }
  }

  /** Compilation fails exactly on an operator that is not supported. */
  lemma {:induction false} PiecesFailIff(en: Engine, cs: seq<Clause>)
    ensures Pieces(en, cs).Success? <==> forall i :: 0 <= i < |cs| ==> !cs[i].op.Other?
  {
    if cs != [] {
      ClauseCompiles(en, cs[0]);
      PiecesFailIff(en, cs[1..]);
      assert forall i :: 0 < i < |cs| ==> cs[i] == cs[1..][i - 1];
    }
  }

  /** What a whole predicate evaluates to; true, with nothing consumed, when there is none. */
  ghost function SqlValue(en: Engine, row: Row, sql: Sql): Valued {
    if sql.tokens == [] then Value3(True, sql.params)
    else
      var p := ParseOr(sql.tokens, 0);
      if p.Got? && p.next == |sql.tokens| then Eval(en, row, p.expr, sql.params) else Stuck
  }

  /** The three-valued conjunction of the groups that are there. */
  ghost function WholeTruth(en: Engine, row: Row, ands: seq<Piece>, ors: seq<Piece>): Truth
    requires Fits(ands) && Fits(ors) && AllSound(ands) && AllSound(ors)
  {
    And(if ands == [] then True else Fold(en, row, ands, KwAnd), if ors == [] then True else Fold(en, row, ors, KwOr))
  }

  /** What both groups evaluate to; a malformed path in either leaves them stuck. */
  ghost function WholeValue(en: Engine, row: Row, ands: seq<Piece>, ors: seq<Piece>): Valued
    requires Fits(ands) && Fits(ors)
  {
    if AllSound(ands) && AllSound(ors) then Value3(WholeTruth(en, row, ands, ors), []) else Stuck
  }

  lemma EvalWhole(en: Engine, row: Row, ands: seq<Piece>, ors: seq<Piece>)
    requires (ands != [] || ors != []) && Fits(ands) && Fits(ors)
    ensures Eval(en, row, Whole(ands, ors), AllParams(ands) + AllParams(ors)) == WholeValue(en, row, ands, ors)
  {
    var a, o := AllParams(ands), AllParams(ors);
    assert a + [] == a && [] + o == o && o + [] == o;
    if ands != [] { EvalChain(en, row, ands, KwAnd, o); }
    if ors != [] { EvalChain(en, row, ors, KwOr, []); }
  }

  /** What a filter evaluates to over what the database reads. */
  ghost function FilterValue(en: Engine, row: Row, f: Option<FilterExpr>): Valued {
    if FilterReadable(f) then Value3(FilterMeaning(en, AsRead(en, row), f), []) else Stuck
  }

  /** A compiled filter's groups have the value of the filter. */
  lemma FilterTruth(en: Engine, row: Row, f: FilterExpr)
    requires Compiled(en, Some(f)).Success?
    ensures var a, o := Pieces(en, Clauses(f.ands)).value, Pieces(en, Clauses(f.ors)).value;
      && Fits(a) && Fits(o)
      && WholeValue(en, row, a, o) == FilterValue(en, row, Some(f))
      && Compiled(en, Some(f)).value == AndThen(Grouped(a, KwAnd), Grouped(o, KwOr))
  {
    PiecesReadable(en, Clauses(f.ands));
    PiecesReadable(en, Clauses(f.ors));
    if FilterReadable(Some(f)) {
      if Clauses(f.ands) != [] { PiecesMeaning(en, row, Clauses(f.ands)); }
      if Clauses(f.ors) != [] { PiecesMeaning(en, row, Clauses(f.ors)); }
    }
  }

  /**
    The tokens mean what the filter means of the values that the database reads:
    they parse as a whole, and their value, taking its parameters from left to
    right, is the three-valued meaning of the filter with no parameter left over,
    unless some path is malformed.
  */
  lemma TokensMeaning(en: Engine, row: Row, f: Option<FilterExpr>)
    requires Compiled(en, f).Success?
    ensures SqlValue(en, row, Compiled(en, f).value) == FilterValue(en, row, f)
  {
    if f.Some? {
      FilterTruth(en, row, f.value);
      var a, o := Pieces(en, Clauses(f.value.ands)).value, Pieces(en, Clauses(f.value.ors)).value;
      if a != [] || o != [] {
        ParseWhole(Compiled(en, f).value.tokens, 0, a, o);
        EvalWhole(en, row, a, o);
      }
    }
  }

  // ------------------------------------------------- the fields' own values

  lemma {:induction false} SameLooks(en: Engine, look: string -> Value, look': string -> Value, cs: seq<Clause>)
    requires forall c :: c in cs ==> look(c.field) == look'(c.field)
    ensures AllOf(en, look, cs) == AllOf(en, look', cs) && AnyOf(en, look, cs) == AnyOf(en, look', cs)
  {
    if cs != [] { SameLooks(en, look, look', cs[1..]); }
  }

  lemma ReadsOwn(en: Engine, row: Row, cs: seq<Clause>)
    requires AllAddressable(en, cs)
    ensures AllReadable(cs) && forall c :: c in cs ==> AsRead(en, row)(c.field) == Own(row)(c.field)
  {
    forall c | c in cs ensures FieldReadable(c.field) && AsRead(en, row)(c.field) == Own(row)(c.field) {
      FieldIff(en, c.field);
    }
  }

  /** Where all fields can be addressed, a filter evaluates to its meaning over the fields' own values. */
  lemma AddressableMeaning(en: Engine, row: Row, f: Option<FilterExpr>)
    requires FilterAddressable(en, f)
    ensures FilterValue(en, row, f) == Value3(FilterMeaning(en, Own(row), f), [])
  {
    if f.Some? {
      var ands, ors := Clauses(f.value.ands), Clauses(f.value.ors);
      ReadsOwn(en, row, ands);
      ReadsOwn(en, row, ors);
      SameLooks(en, AsRead(en, row), Own(row), ands);
      SameLooks(en, AsRead(en, row), Own(row), ors);
    }
  }

  /** A filter compiles exactly when all its operators are supported. */
  lemma CompilesIff(en: Engine, f: FilterExpr)
    ensures Compiled(en, Some(f)).Success?
      <==> forall c :: c in Clauses(f.ands) + Clauses(f.ors) ==> !c.op.Other?
  {
    PiecesFailIff(en, Clauses(f.ands));
    PiecesFailIff(en, Clauses(f.ors));
    forall c | c in Clauses(f.ands) + Clauses(f.ors)
      ensures c in Clauses(f.ands) || c in Clauses(f.ors) {}
  }

  // ------------------------------------------------ a keyword query's extra conjunct

  /** MATCH ? followed by AND and the predicate, as a keyword search puts them together. */
  function Keyword(phrase: Value, sql: Sql): Sql {
    AndThen(Sql([Of(Match)], [phrase]), sql)
  }

  /** A match joined by AND to what follows it. */
  ghost function Conjoined(en: Engine, row: Row, phrase: Value, v: Valued): Valued {
    if v == Stuck then Stuck else Value3(And(EvalAtom(en, row, Match, [phrase]), v.truth), v.rest)
  }

  lemma EvalFront(en: Engine, row: Row, p: Value, e: Expr, ps: seq<Value>)
    ensures Eval(en, row, Both(Leaf(Match), e), [p] + ps) == Conjoined(en, row, p, Eval(en, row, e, ps))
  {
    assert ([p] + ps)[..1] == [p] && ([p] + ps)[1..] == ps;
  }

  lemma AtomFirst(ts: seq<Token>, a: Atom)
    requires ts != [] && ts[0] == Of(a)
    ensures ParsePrimary(ts, 0) == Got(Leaf(a), 1)
  {
  }

  lemma KeywordAlone(en: Engine, row: Row, phrase: Value)
    ensures SqlValue(en, row, Sql([Of(Match)], [phrase])) == Value3(EvalAtom(en, row, Match, [phrase]), [])
  {
    var ts := [Of(Match)];
    AtomFirst(ts, Match);
    assert ParseAnd(ts, 0) == Got(Leaf(Match), 1);
    assert [phrase][..1] == [phrase] && [phrase][1..] == [];
  }

  lemma StandsBehind(head: seq<Token>, sub: seq<Token>)
    ensures StandsAt(head + sub, |head|, sub)
  {
  }

  lemma KeywordParse(ts: seq<Token>, a: seq<Piece>, o: seq<Piece>)
    requires a != [] || o != []
    requires ts == [Of(Match), KwAnd] + AndThen(Grouped(a, KwAnd), Grouped(o, KwOr)).tokens
    ensures ParseOr(ts, 0) == Got(Both(Leaf(Match), Whole(a, o)), |ts|)
  {
    StandsBehind([Of(Match), KwAnd], AndThen(Grouped(a, KwAnd), Grouped(o, KwOr)).tokens);
    assert ts[0] == Of(Match) && ts[1] == KwAnd;
    AtomFirst(ts, Match);
    ParseWhole(ts, 2, a, o);
    AndMore(ts, 0, Leaf(Match), 1, Whole(a, o));
  }

  lemma KeywordParts(en: Engine, row: Row, phrase: Value, a: seq<Piece>, o: seq<Piece>, k: Sql)
    requires Fits(a) && Fits(o) && (a != [] || o != [])
    requires k == Keyword(phrase, AndThen(Grouped(a, KwAnd), Grouped(o, KwOr)))
    ensures SqlValue(en, row, k) == Conjoined(en, row, phrase, WholeValue(en, row, a, o))
  {
    var ps := AllParams(a) + AllParams(o);
    assert k.tokens == [Of(Match), KwAnd] + AndThen(Grouped(a, KwAnd), Grouped(o, KwOr)).tokens;
    assert k.params == [phrase] + ps;
    KeywordParse(k.tokens, a, o);
    EvalWhole(en, row, a, o);
    EvalFront(en, row, phrase, Whole(a, o), ps);
  }

  /** In a keyword search the tokens of the filter stay one conjunct beside the match. */
  lemma KeywordTokensMeaning(en: Engine, row: Row, phrase: Value, f: Option<FilterExpr>)
    requires Compiled(en, f).Success?
    ensures SqlValue(en, row, Keyword(phrase, Compiled(en, f).value))
      == Conjoined(en, row, phrase, FilterValue(en, row, f))
  {
    var sql := Compiled(en, f).value;
    if f.Some? { FilterTruth(en, row, f.value); }
    if sql.tokens == [] {
      KeywordAlone(en, row, phrase);
      assert Keyword(phrase, sql) == Sql([Of(Match)], [phrase]);
    } else {
      KeywordParts(en, row, phrase,
                   Pieces(en, Clauses(f.value.ands)).value, Pieces(en, Clauses(f.value.ors)).value,
                   Keyword(phrase, sql));
    }
  }

  // -------------------------------------------------------- excluding the cache

  const CACHE_DOC_ID := "__semantic_cache__"

  const EXCLUSION := Clause("doc_id", OpNe, Text(CACHE_DOC_ID))

  function ExcludeCache(f: Option<FilterExpr>): FilterExpr {
    if f == None then FilterExpr(Some([EXCLUSION]), None)
    else if Clauses(f.value.ands) != [] then
      FilterExpr(Some(Clauses(f.value.ands) + [EXCLUSION]), f.value.ors)
    else FilterExpr(Some([EXCLUSION]), f.value.ors)
  }

  lemma {:induction false} AllOfMore(en: Engine, look: string -> Value, cs: seq<Clause>, c: Clause)
    ensures AllOf(en, look, cs + [c]) == And(AllOf(en, look, cs), Meaning(en, look(c.field), c))
  {
    if cs == [] {
      assert cs + [c] == [c] && [c][1..] == [];
    } else {
      assert (cs + [c])[1..] == cs[1..] + [c];
      AllOfMore(en, look, cs[1..], c);
    }
  }

  /** A row of the table: doc_id is never null. */
  predicate Stored(row: Row) {
    "doc_id" in row.columns && row.columns["doc_id"].Text?
  }

  lemma ExclusionMeaning(en: Engine, v: Value)
    requires v.Text?
    ensures Meaning(en, v, EXCLUSION) == Holds(v != Text(CACHE_DOC_ID))
  {
  }

  lemma ColumnRead(en: Engine, row: Row, field: string)
    requires field in REAL_COLUMNS && field in row.columns
    ensures FieldReadable(field) && AsRead(en, row)(field) == row.columns[field]
  {
  }

  /** The exclusion is one more conjunct of the and-group. */
  lemma ExcludeCacheGroups(f: Option<FilterExpr>)
    ensures var all := ExcludeCache(f);
      && Clauses(all.ands) == (if f == None then [] else Clauses(f.value.ands)) + [EXCLUSION]
      && Clauses(all.ors) == (if f == None then [] else Clauses(f.value.ors))
      && (FilterReadable(f) <==> FilterReadable(Some(all)))
  {
    var all := ExcludeCache(f);
    var kept := if f == None then [] else Clauses(f.value.ands);
    assert Clauses(all.ands) == kept + [EXCLUSION];
    assert forall c :: c in Clauses(all.ands) <==> c in kept || c == EXCLUSION;
    assert FieldReadable(EXCLUSION.field);
  }

  lemma ExcludeCacheCompiles(en: Engine, f: Option<FilterExpr>)
    requires Compiled(en, f).Success?
    ensures Compiled(en, Some(ExcludeCache(f))).Success?
  {
    var all := ExcludeCache(f);
    ExcludeCacheGroups(f);
    CompilesIff(en, all);
    if f.Some? {
      CompilesIff(en, f.value);
      forall c | c in Clauses(all.ands) + Clauses(all.ors) ensures !c.op.Other? {
        assert c == EXCLUSION || c in Clauses(f.value.ands) + Clauses(f.value.ors);
      }
    }
  }

  /** The filter with the exclusion is true of a row exactly when the filter is, and the row is not of the cache. */
  lemma ExcludedValue(en: Engine, row: Row, f: Option<FilterExpr>)
    requires Stored(row)
    ensures FilterValue(en, row, Some(ExcludeCache(f))) == Value3(True, [])
      <==> FilterValue(en, row, f) == Value3(True, []) && row.columns["doc_id"] != Text(CACHE_DOC_ID)
  {
    ExcludeCacheGroups(f);
    AllOfMore(en, AsRead(en, row), if f == None then [] else Clauses(f.value.ands), EXCLUSION);
    ColumnRead(en, row, "doc_id");
    ExclusionMeaning(en, row.columns["doc_id"]);
  }
}
