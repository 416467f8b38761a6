/**
 * The statement of the worker's `GET /api/services` (backend/index.ts): SQL text is kept as
 * literal pieces and `?` placeholders, so that "one placeholder per bound parameter" is a
 * statement about the placeholders and the pieces rather than about long literal strings.
 */
module ListQuery {
  import opened Wrappers
  import opened Text

  datatype Sql = Piece(text: string) | Param

  /** The SQL text: each placeholder written as `?`. */
  function Render(q: seq<Sql>): string
    decreases |q|
  {
    if |q| == 0 then "" else (if q[0].Param? then "?" else q[0].text) + Render(q[1..])
  }

  /** The number of placeholders, i.e. of values `bind` must be given. */
  function Arity(q: seq<Sql>): nat
    decreases |q|
  {
    if |q| == 0 then 0 else (if q[0].Param? then 1 else 0) + Arity(q[1..])
  }

  /** No literal piece contains a `?` of its own. */
  predicate Clean(q: seq<Sql>) {
    forall i :: 0 <= i < |q| && q[i].Piece? ==> '?' !in q[i].text
  }

  lemma {:induction false} RenderConcat(a: seq<Sql>, b: seq<Sql>)
    ensures Render(a + b) == Render(a) + Render(b)
    ensures Arity(a + b) == Arity(a) + Arity(b)
    decreases |a|
  {
    if |a| > 0 {
      assert (a + b)[1..] == a[1..] + b;
      RenderConcat(a[1..], b);
    } else {
      assert a + b == b;
    }
  }

  /** In a clean statement the `?` characters of the text are exactly the placeholders. */
  lemma {:induction false} RenderCount(q: seq<Sql>)
    requires Clean(q)
    ensures Count(Render(q), '?') == Arity(q)
    decreases |q|
  {
    if |q| > 0 {
      RenderCount(q[1..]);
      var head := if q[0].Param? then "?" else q[0].text;
      if q[0].Piece? {
        CountAbsent(head, '?');
      }
      CountConcat(head, Render(q[1..]), '?');
    }
  }

  /** Appending a clean clause keeps a statement clean and adds the clause's placeholders. */
  lemma {:induction false} Append(q: seq<Sql>, clause: seq<Sql>)
    requires Clean(q) && Clean(clause)
    ensures Clean(q + clause) && Arity(q + clause) == Arity(q) + Arity(clause)
  {
    RenderConcat(q, clause);
    forall i | 0 <= i < |q + clause| && (q + clause)[i].Piece?
      ensures '?' !in (q + clause)[i].text
    {
      if i < |q| {
        assert (q + clause)[i] == q[i];
      } else {
        assert (q + clause)[i] == clause[i - |q|];
      }
    }
  }

  /** A JavaScript truthy query value: present and non-empty. */
  predicate Truthy(v: Option<string>) {
    v.Some? && v.value != ""
  }

  /** `%${search}%`. */
  function Like(s: string): string {
    "%" + s + "%"
  }

  const BaseText := "SELECT * FROM services WHERE is_active = 1"
  const OrderText := " ORDER BY created_at DESC"
  const CategoryText := " AND category = "
  const TypeText := " AND type = "
  const TitleLikeText := " AND (title LIKE "
  const DescriptionLikeText := " OR description LIKE "
  const CloseText := ")"

  const BaseQuery: seq<Sql> := [Piece(BaseText)]
  const CategoryClause: seq<Sql> := [Piece(CategoryText), Param]
  const TypeClause: seq<Sql> := [Piece(TypeText), Param]
  const SearchClause: seq<Sql> := [Piece(TitleLikeText), Param, Piece(DescriptionLikeText), Param, Piece(CloseText)]
  const OrderClause: seq<Sql> := [Piece(OrderText)]

  // Each literal is examined in a lemma of its own, which keeps every proof small.

  lemma BaseTextUnmarked() ensures '?' !in BaseText { }
  lemma OrderTextUnmarked() ensures '?' !in OrderText { }
  lemma TitleLikeUnmarked() ensures '?' !in TitleLikeText { }
  lemma DescriptionLikeUnmarked() ensures '?' !in DescriptionLikeText { }
  lemma CategoryTextUnmarked() ensures '?' !in CategoryText { }
  lemma TypeTextUnmarked() ensures '?' !in TypeText { }
  lemma CloseUnmarked() ensures '?' !in CloseText { assert CloseText[0] == ')'; }

  lemma BaseClean()
    ensures Clean(BaseQuery) && Arity(BaseQuery) == 0 && Render(BaseQuery) == BaseText
  {
    BaseTextUnmarked();
  }

  lemma OrderClean()
    ensures Clean(OrderClause) && Arity(OrderClause) == 0 && Render(OrderClause) == OrderText
  {
    OrderTextUnmarked();
  }

  lemma CategoryClean()
    ensures Clean(CategoryClause) && Arity(CategoryClause) == 1
  {
    CategoryTextUnmarked();
    assert CategoryClause[1..] == [Param];
    assert Arity([Param]) == 1;
  }

  lemma TypeClean()
    ensures Clean(TypeClause) && Arity(TypeClause) == 1
  {
    TypeTextUnmarked();
    assert TypeClause[1..] == [Param];
    assert Arity([Param]) == 1;
  }

  lemma SearchClean()
    ensures Clean(SearchClause) && Arity(SearchClause) == 2
  {
    TitleLikeUnmarked();
    DescriptionLikeUnmarked();
    CloseUnmarked();
    var x, y, z := [Piece(TitleLikeText), Param], [Piece(DescriptionLikeText), Param], [Piece(CloseText)];
    assert x[1..] == [Param] && y[1..] == [Param];
    assert Arity([Param]) == 1;
    assert Arity(x) == 1 && x[0].text == TitleLikeText && Clean(x);
    assert Arity(y) == 1 && y[0].text == DescriptionLikeText && Clean(y);
    assert Clean(z) && Arity(z) == 0;
    Append(x, y);
    Append(x + y, z);
    assert SearchClause == x + y + z;
  }

  /** A clause that is present only when its filter is set. */
  function Optional(on: bool, clause: seq<Sql>): seq<Sql> {
    if on then clause else []
  }

  lemma OptionalClean(on: bool, clause: seq<Sql>)
    requires Clean(clause)
    ensures Clean(Optional(on, clause)) && Arity(Optional(on, clause)) == if on then Arity(clause) else 0
  {
  }

  /**
   * The statement: the active-rows base, then the category, type and search clauses in that
   * order, each only for a truthy filter, then the ordering.
   */
  function ListStatement(category: Option<string>, kind: Option<string>, search: Option<string>): seq<Sql> {
    BaseQuery
      + Optional(Truthy(category), CategoryClause)
      + Optional(Truthy(kind), TypeClause)
      + Optional(Truthy(search), SearchClause)
      + OrderClause
  }

  function ListText(category: Option<string>, kind: Option<string>, search: Option<string>): string {
    Render(ListStatement(category, kind, search))
  }

  /** The bound values: the category, the type, and the search text twice, wrapped in `%`. */
  function ListParams(category: Option<string>, kind: Option<string>, search: Option<string>): seq<string> {
    (if Truthy(category) then [category.value] else [])
      + (if Truthy(kind) then [kind.value] else [])
      + (if Truthy(search) then [Like(search.value), Like(search.value)] else [])
  }

  /** Five clean parts make a clean statement whose placeholders add up. */
  lemma {:induction false} ChainClean(p: seq<Sql>, a: seq<Sql>, b: seq<Sql>, c: seq<Sql>, o: seq<Sql>)
    requires Clean(p) && Clean(a) && Clean(b) && Clean(c) && Clean(o)
    ensures Clean(p + a + b + c + o)
    ensures Arity(p + a + b + c + o) == Arity(p) + Arity(a) + Arity(b) + Arity(c) + Arity(o)
  {
    Append(p, a);
    Append(p + a, b);
    Append(p + a + b, c);
    Append(p + a + b + c, o);
  }

  /** The text of two parts starts with the first part's text and ends with the second one's. */
  lemma RenderFrame(x: seq<Sql>, y: seq<Sql>)
    ensures Render(x) <= Render(x + y)
    ensures EndsWith(Render(x + y), Render(y))
  {
    RenderConcat(x, y);
    var t := Render(x + y);
    assert t[|t| - |Render(y)|..] == Render(y);
  }

  /** The text of five parts starts with the first part's text and ends with the last one's. */
  lemma ChainFrame(p: seq<Sql>, a: seq<Sql>, b: seq<Sql>, c: seq<Sql>, o: seq<Sql>)
    ensures StartsWith(Render(p + a + b + c + o), Render(p))
    ensures EndsWith(Render(p + a + b + c + o), Render(o))
  {
    RenderFrame(p, a);
    RenderFrame(p + a, b);
    RenderFrame(p + a + b, c);
    RenderFrame(p + a + b + c, o);
  }

  lemma ListStatementArity(category: Option<string>, kind: Option<string>, search: Option<string>)
    ensures Clean(ListStatement(category, kind, search))
    ensures Arity(ListStatement(category, kind, search)) == |ListParams(category, kind, search)|
  {
    BaseClean();
    OrderClean();
    CategoryClean();
    TypeClean();
    SearchClean();
    OptionalClean(Truthy(category), CategoryClause);
    OptionalClean(Truthy(kind), TypeClause);
    OptionalClean(Truthy(search), SearchClause);
    ChainClean(BaseQuery, Optional(Truthy(category), CategoryClause), Optional(Truthy(kind), TypeClause),
      Optional(Truthy(search), SearchClause), OrderClause);
  }

  /** Whatever the filters, the SQL text has exactly one `?` per bound value. */
  lemma ListPlaceholders(category: Option<string>, kind: Option<string>, search: Option<string>)
    ensures Count(ListText(category, kind, search), '?') == |ListParams(category, kind, search)|
  {
    ListStatementArity(category, kind, search);
    RenderCount(ListStatement(category, kind, search));
  }

  /** Whatever the filters, the SQL text starts with the active-rows base and ends with the ordering. */
  lemma ListFrame(category: Option<string>, kind: Option<string>, search: Option<string>)
    ensures StartsWith(ListText(category, kind, search), BaseText)
    ensures EndsWith(ListText(category, kind, search), OrderText)
  {
    BaseClean();
    OrderClean();
    ChainFrame(BaseQuery, Optional(Truthy(category), CategoryClause), Optional(Truthy(kind), TypeClause),
      Optional(Truthy(search), SearchClause), OrderClause);
  }

  /**
   * The list route's `query +=` / `params.push` sequence; the clauses are appended as
   * pieces and placeholders, and the text is their rendering.
   */
  method BuildListQuery(category: Option<string>, kind: Option<string>, search: Option<string>)
    returns (query: string, params: seq<string>)
    ensures query == ListText(category, kind, search)
    ensures params == ListParams(category, kind, search)
  {
    var statement := BaseQuery;
    params := [];
    if Truthy(category) {
      statement := statement + CategoryClause;
      params := params + [category.value];
    }
    assert statement == BaseQuery + Optional(Truthy(category), CategoryClause);
    if Truthy(kind) {
      statement := statement + TypeClause;
      params := params + [kind.value];
    }
    assert statement == BaseQuery + Optional(Truthy(category), CategoryClause) + Optional(Truthy(kind), TypeClause);
    if Truthy(search) {
      statement := statement + SearchClause;
      params := params + [Like(search.value), Like(search.value)];
    }
    assert statement == BaseQuery + Optional(Truthy(category), CategoryClause) + Optional(Truthy(kind), TypeClause) + Optional(Truthy(search), SearchClause);
    statement := statement + OrderClause;
    assert statement == ListStatement(category, kind, search);
    query := Render(statement);
  }
}
