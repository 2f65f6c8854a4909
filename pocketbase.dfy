/**
 * The client class in utils/Pocketbase.java: its record query (`RecordQuery.getQuery`),
 * the filter expression builder (`RecordQuery.FilterBuilder` and `Operators`), the
 * status-code decisions taken by `getJson`, `sendData` and `authRefresh`, and the JSON
 * payloads written by `postJson` and `updateUser`. The HTTP round trips themselves are
 * not modelled; only what is decided from their inputs and status codes is.
 */
module Pocketbase {
  import opened Wrappers
  import opened JavaText
  import opened QueryParts

  /** The base URL every endpoint is appended to. */
  const PocketbaseUrl: string := "127.0.0.1"

  // ---------------------------------------------------------------------------------
  // Record query
  // ---------------------------------------------------------------------------------

  /** The state of a `RecordQuery`: zero and null mean "not specified". */
  datatype QueryOptions = QueryOptions(
    page: Int32,
    perPage: Int32,
    sort: Option<string>,
    filter: Option<string>,
    skipTotal: bool)

  /** The query parameters a `RecordQuery` knows. */
  datatype Field = Page | PerPage | Sort | Filter | SkipTotal

  /** The text written before each field's value: the parameter name and '='. */
  function Prefix(f: Field): string {
    match f
    case Page => "page="
    case PerPage => "perPage="
    case Sort => "sort="
    case Filter => "filter="
    case SkipTotal => "skipTotal="
  }

  /** The order in which `getQuery` considers the fields. */
  const FieldOrder: seq<Field> := [Page, PerPage, Sort, Filter, SkipTotal]

  /**
   * The text a parameter should carry, field by field: the decimal number for a non-zero
   * page or perPage, the string itself for a non-null sort or filter, "true" for skipTotal;
   * None for a field that is not set.
   */
  function FieldValue(o: QueryOptions, f: Field): Option<string> {
    match f
    case Page => if o.page != 0 then Some(IntToString(o.page as int)) else None
    case PerPage => if o.perPage != 0 then Some(IntToString(o.perPage as int)) else None
    case Sort => o.sort
    case Filter => o.filter
    case SkipTotal => if o.skipTotal then Some("true") else None
  }

  /** The fields among `fs` that are set in `o`, in the order given. */
  function FieldsSet(o: QueryOptions, fs: seq<Field>): seq<Field> {
    if fs == [] then []
    else FieldsSet(o, fs[..|fs| - 1]) + if FieldValue(o, fs[|fs| - 1]).Some? then [fs[|fs| - 1]] else []
  }

  predicate NothingSet(o: QueryOptions) {
    o.page == 0 && o.perPage == 0 && o.sort.None? && o.filter.None? && !o.skipTotal
  }

  /** The parameter for field `f`, written when the field is set. */
  function FieldParam(o: QueryOptions, f: Field): Param<Field> {
    Param(f, FieldValue(o, f).GetOr(""))
  }

  /** Considering the fields `fs` in turn, append a parameter for each one that is set. */
  function ParamsOf(o: QueryOptions, fs: seq<Field>): seq<Param<Field>> {
    if fs == [] then []
    else
      var f := fs[|fs| - 1];
      Emit(ParamsOf(o, fs[..|fs| - 1]), FieldValue(o, f).Some?, FieldParam(o, f))
  }

  /** The parameters `getQuery` writes, in the order it writes them. */
  function QueryParams(o: QueryOptions): seq<Param<Field>> {
    ParamsOf(o, FieldOrder)
  }

  /** `name=value`, with no encoding of either side. */
  function Pair(p: Param<Field>): string {
    Prefix(p.key) + p.value
  }

  /** The pair of every parameter, in order. */
  function Pairs(ps: seq<Param<Field>>): (pairs: seq<string>)
    ensures |pairs| == |ps|
  {
    if ps == [] then [] else [Pair(ps[0])] + Pairs(ps[1..])
  }

  lemma {:induction false} PairsSnoc(ps: seq<Param<Field>>, p: Param<Field>)
    ensures Pairs(ps + [p]) == Pairs(ps) + [Pair(p)]
    decreases |ps|
  {
    if ps == [] {
      assert ps + [p] == [p];
    } else {
      assert (ps + [p])[1..] == ps[1..] + [p];
      PairsSnoc(ps[1..], p);
    }
  }

  /** The value of `nextChar` once `k` parameters have been written. */
  function Separator(k: nat): string {
    if k == 0 then "?" else "&"
  }

  /** Pairs written from the `k`-th on: each pair is FOLLOWED by its separator. */
  function Render(pairs: seq<string>, k: nat): string {
    if pairs == [] then "" else pairs[0] + Separator(k) + Render(pairs[1..], k + 1)
  }

  /** What `getQuery` returns for the state `o`: empty exactly when no parameter is written. */
  function Query(o: QueryOptions): (q: string)
    ensures q == "" <==> QueryParams(o) == []
  {
    Render(Pairs(QueryParams(o)), 0)
  }

  /** `getUserRecords(query)`: the caller puts its own '?' before the query text. */
  function RecordsUrl(query: string): (url: string)
    ensures |url| > |query|
    ensures url[|url| - |query| - 1] == '?' && url[|url| - |query|..] == query
  {
    PocketbaseUrl + "/api/collections/users/records?" + query
  }

  /** Different fields are written under different names. */
  lemma PrefixInjective(f: Field, g: Field)
    ensures Prefix(f) == Prefix(g) ==> f == g
  {
  }

  /** Writing one more pair appends it and the separator due at that point. */
  lemma {:induction false} RenderSnoc(pairs: seq<string>, pair: string, k: nat)
    ensures Render(pairs + [pair], k) == Render(pairs, k) + pair + Separator(k + |pairs|)
    decreases |pairs|
  {
    if pairs == [] {
      assert pairs + [pair] == [pair];
    } else {
      var head := pairs[0] + Separator(k);
      var rest := Render(pairs[1..], k + 1);
      assert (pairs + [pair])[1..] == pairs[1..] + [pair];
      RenderSnoc(pairs[1..], pair, k + 1);
      var sep := Separator(k + |pairs|);
      assert Render(pairs + [pair], k) == head + (rest + pair + sep);
      AppendAssoc(head, rest + pair, sep);
      AppendAssoc(head, rest, pair);
    }
  }

  /**
   * One conditional append of `getQuery`: when the field is set, its pair and the pending
   * separator extend the text, and the separator becomes '&'.
   */
  lemma AppendStep(query: string, ps: seq<Param<Field>>, cond: bool, p: Param<Field>)
    requires query == Render(Pairs(ps), 0)
    ensures Render(Pairs(Emit(ps, cond, p)), 0) ==
      if cond then query + Pair(p) + Separator(|ps|) else query
    ensures Separator(|Emit(ps, cond, p)|) == if cond then "&" else Separator(|ps|)
  {
    if cond {
      RenderPairsSnoc(ps, p);
    }
  }

  lemma RenderPairsSnoc(ps: seq<Param<Field>>, p: Param<Field>)
    ensures Render(Pairs(ps + [p]), 0) == Render(Pairs(ps), 0) + Pair(p) + Separator(|ps|)
  {
    PairsSnoc(ps, p);
    RenderSnoc(Pairs(ps), Pair(p), 0);
  }

  /** After the first pair every separator is '&'. */
  lemma {:induction false} RenderAfterFirst(pairs: seq<string>, k: nat)
    requires k >= 1
    ensures Render(pairs, k) == Terminated(pairs)
    decreases |pairs|
  {
    if pairs != [] {
      RenderAfterFirst(pairs[1..], k + 1);
    }
  }

  /** The query is empty exactly when no parameter is set. */
  lemma QueryEmptyIff(o: QueryOptions)
    ensures Query(o) == "" <==> NothingSet(o)
  {
    var pairs := Pairs(QueryParams(o));
    QueryParamsUnrolled(o);
    assert QueryParams(o) == [] <==> NothingSet(o);
    if pairs != [] {
      assert |Query(o)| >= |pairs[0]| + 1;
    }
  }

  /** The value of `nextChar` once the first `k` fields have been considered. */
  function NextChar(o: QueryOptions, k: nat): string
    requires k <= |FieldOrder|
  {
    if k == 0 then "?"
    else if FieldValue(o, FieldOrder[k - 1]).Some? then "&"
    else NextChar(o, k - 1)
  }

  /**
   * The text `getQuery` holds once it has considered the first `k` fields: the text before,
   * then `name=`, the value and the pending separator when the `k`-th field is set.
   */
  function Written(o: QueryOptions, k: nat): string
    requires k <= |FieldOrder|
  {
    if k == 0 then ""
    else
      var f := FieldOrder[k - 1];
      AppendIf(Written(o, k - 1), FieldValue(o, f).Some?, Prefix(f), FieldValue(o, f).GetOr(""), NextChar(o, k - 1))
  }

  /**
   * What is written for the first `k` fields is the rendering of the parameters they give,
   * and `nextChar` is the separator due after that many pairs.
   */
  lemma {:induction false} WrittenParams(o: QueryOptions, k: nat)
    requires k <= |FieldOrder|
    ensures Written(o, k) == Render(Pairs(ParamsOf(o, FieldOrder[..k])), 0)
    ensures NextChar(o, k) == Separator(|ParamsOf(o, FieldOrder[..k])|)
  {
    if k > 0 {
      var f := FieldOrder[k - 1];
      var ps := ParamsOf(o, FieldOrder[..k - 1]);
      var q, isSet, fp := Written(o, k - 1), FieldValue(o, f).Some?, FieldParam(o, f);
      WrittenParams(o, k - 1);
      assert FieldOrder[..k][..k - 1] == FieldOrder[..k - 1];
      assert ParamsOf(o, FieldOrder[..k]) == Emit(ps, isSet, fp);
      assert Written(o, k) == AppendIf(q, isSet, Prefix(f), fp.value, NextChar(o, k - 1));
      AppendStep(q, ps, isSet, fp);
      if isSet {
        AppendAssoc(q, Prefix(f), fp.value);
      }
    }
  }

  /** Once every field is considered, the text is the query. */
  lemma WrittenAll(o: QueryOptions)
    ensures Written(o, |FieldOrder|) == Query(o)
  {
    WrittenParams(o, |FieldOrder|);
    assert FieldOrder[..|FieldOrder|] == FieldOrder;
  }

  /** The text after the first three appends (page, perPage, sort). */
  function QueryHead(o: QueryOptions): string {
    var q1 := AppendIf("", o.page != 0, "page=", IntToString(o.page as int), "?");
    var c1 := if o.page != 0 then "&" else "?";
    var q2 := AppendIf(q1, o.perPage != 0, "perPage=", IntToString(o.perPage as int), c1);
    var c2 := if o.perPage != 0 then "&" else c1;
    AppendIf(q2, o.sort.Some?, "sort=", o.sort.GetOr(""), c2)
  }

  /** `nextChar` after the first three appends: '&' once one of them has written a pair. */
  function HeadNextChar(o: QueryOptions): string {
    if o.page != 0 || o.perPage != 0 || o.sort.Some? then "&" else "?"
  }

  /** The query text built by five conditional appends, each followed by the pending separator. */
  function QueryText(o: QueryOptions): string {
    var q3 := QueryHead(o);
    var c3 := HeadNextChar(o);
    var q4 := AppendIf(q3, o.filter.Some?, "filter=", o.filter.GetOr(""), c3);
    var c4 := if o.filter.Some? then "&" else c3;
    AppendIf(q4, o.skipTotal, "skipTotal=", BoolToString(o.skipTotal), c4)
  }

  /** The first three appends leave the text and `nextChar` of the first three fields. */
  lemma QueryHeadIsWritten(o: QueryOptions)
    ensures QueryHead(o) == Written(o, 3) && HeadNextChar(o) == NextChar(o, 3)
  {
    var q1 := AppendIf("", o.page != 0, "page=", IntToString(o.page as int), "?");
    var c1 := if o.page != 0 then "&" else "?";
    assert q1 == Written(o, 1) && c1 == NextChar(o, 1);
    var q2 := AppendIf(q1, o.perPage != 0, "perPage=", IntToString(o.perPage as int), c1);
    var c2 := if o.perPage != 0 then "&" else c1;
    assert q2 == Written(o, 2) && c2 == NextChar(o, 2);
  }

  /** The five appends produce the parameters that are set, each followed by its separator. */
  lemma QueryTextIsQuery(o: QueryOptions)
    ensures QueryText(o) == Query(o)
  {
    QueryHeadIsWritten(o);
    var q4 := AppendIf(QueryHead(o), o.filter.Some?, "filter=", o.filter.GetOr(""), HeadNextChar(o));
    var c4 := if o.filter.Some? then "&" else HeadNextChar(o);
    assert q4 == Written(o, 4) && c4 == NextChar(o, 4);
    assert QueryText(o) == Written(o, 5);
    WrittenAll(o);
  }

  /** The parameters are the fields that are set, in the order considered. */
  lemma {:induction false} ParamsOfKeys(o: QueryOptions, fs: seq<Field>)
    ensures Keys(ParamsOf(o, fs)) == FieldsSet(o, fs)
    decreases |fs|
  {
    if fs != [] {
      var f := fs[|fs| - 1];
      ParamsOfKeys(o, fs[..|fs| - 1]);
      KeysEmit(ParamsOf(o, fs[..|fs| - 1]), FieldValue(o, f).Some?, FieldParam(o, f));
    }
  }

  /** Among distinct fields, each one considered is found with the value its field dictates. */
  lemma {:induction false} ParamsOfLookup(o: QueryOptions, fs: seq<Field>, g: Field)
    requires forall i, j :: 0 <= i < j < |fs| ==> fs[i] != fs[j]
    ensures Lookup(ParamsOf(o, fs), g) == if g in fs then FieldValue(o, g) else None
    decreases |fs|
  {
    if fs != [] {
      var f := fs[|fs| - 1];
      ParamsOfLookup(o, fs[..|fs| - 1], g);
      LookupEmit(ParamsOf(o, fs[..|fs| - 1]), FieldValue(o, f).Some?, FieldParam(o, f), g);
      assert g in fs <==> g in fs[..|fs| - 1] || g == f;
    }
  }

  /** Exactly the set fields are written, in the fixed order page, perPage, sort, filter, skipTotal. */
  lemma QueryParamKeys(o: QueryOptions)
    ensures Keys(QueryParams(o)) == FieldsSet(o, FieldOrder)
  {
    ParamsOfKeys(o, FieldOrder);
  }

  /** Each field is looked up to the value it dictates: set fields with their text, unset ones absent. */
  lemma QueryParamValues(o: QueryOptions, f: Field)
    ensures Lookup(QueryParams(o), f) == FieldValue(o, f)
  {
    ParamsOfLookup(o, FieldOrder, f);
  }

  /** The parameters of `getQuery`, unrolled into its five conditional appends. */
  lemma QueryParamsUnrolled(o: QueryOptions)
    ensures QueryParams(o) ==
      Emit(Emit(Emit(Emit(Emit([],
        o.page != 0, FieldParam(o, Page)),
        o.perPage != 0, FieldParam(o, PerPage)),
        o.sort.Some?, FieldParam(o, Sort)),
        o.filter.Some?, FieldParam(o, Filter)),
        o.skipTotal, FieldParam(o, SkipTotal))
  {
    var fs1, fs2, fs3, fs4 := [Page], [Page, PerPage], [Page, PerPage, Sort], [Page, PerPage, Sort, Filter];
    assert fs1[..0] == [] && fs2[..1] == fs1 && fs3[..2] == fs2 && fs4[..3] == fs3 && FieldOrder[..4] == fs4;
    var p1 := Emit([], o.page != 0, FieldParam(o, Page));
    assert ParamsOf(o, fs1) == p1;
    var p2 := Emit(p1, o.perPage != 0, FieldParam(o, PerPage));
    assert ParamsOf(o, fs2) == p2;
    var p3 := Emit(p2, o.sort.Some?, FieldParam(o, Sort));
    assert ParamsOf(o, fs3) == p3;
    var p4 := Emit(p3, o.filter.Some?, FieldParam(o, Filter));
    assert ParamsOf(o, fs4) == p4;
  }

  /**
   * The first pair written is followed by '?', every later one by '&'; so a non-empty query
   * ends in '?' when one parameter is set and in '&' when several are.
   */
  lemma QuerySeparators(o: QueryOptions)
    ensures var pairs := Pairs(QueryParams(o));
      pairs != [] ==> Query(o) == pairs[0] + "?" + Terminated(pairs[1..])
    ensures var pairs := Pairs(QueryParams(o));
      pairs != [] ==> Query(o)[|Query(o)| - 1] == if |pairs| == 1 then '?' else '&'
  {
    var pairs := Pairs(QueryParams(o));
    if pairs != [] {
      RenderAfterFirst(pairs[1..], 1);
      TerminatedShape(pairs[1..]);
    }
  }

  /** A `RecordQuery` object; Lombok generates its getters and setters. */
  class RecordQuery {
    var page: Int32
    var perPage: Int32
    var sort: Option<string>
    var filter: Option<string>
    var skipTotal: bool

    /** The object's state as a value. */
    function Options(): QueryOptions
      reads this
    {
      QueryOptions(page, perPage, sort, filter, skipTotal)
    }

    function GetPage(): Int32 reads this { page }
    function GetPerPage(): Int32 reads this { perPage }
    function GetSort(): Option<string> reads this { sort }
    function GetFilter(): Option<string> reads this { filter }
    function IsSkipTotal(): bool reads this { skipTotal }

    constructor (page: Int32, perPage: Int32, sort: Option<string>, filter: Option<string>, skipTotal: bool)
      ensures GetPage() == page && GetPerPage() == perPage && GetSort() == sort
      ensures GetFilter() == filter && IsSkipTotal() == skipTotal
    {
      this.page := page;
      this.perPage := perPage;
      this.sort := sort;
      this.filter := filter;
      this.skipTotal := skipTotal;
    }

    method SetPage(page: Int32)
      modifies this
      ensures GetPage() == page
      ensures Options() == old(Options()).(page := page)
    {
      this.page := page;
    }

    method SetPerPage(perPage: Int32)
      modifies this
      ensures GetPerPage() == perPage
      ensures Options() == old(Options()).(perPage := perPage)
    {
      this.perPage := perPage;
    }

    method SetSort(sort: Option<string>)
      modifies this
      ensures GetSort() == sort
      ensures Options() == old(Options()).(sort := sort)
    {
      this.sort := sort;
    }

    method SetFilter(filter: Option<string>)
      modifies this
      ensures GetFilter() == filter
      ensures Options() == old(Options()).(filter := filter)
    {
      this.filter := filter;
    }

    method SetSkipTotal(skipTotal: bool)
      modifies this
      ensures IsSkipTotal() == skipTotal
      ensures Options() == old(Options()).(skipTotal := skipTotal)
    {
      this.skipTotal := skipTotal;
    }

    /** Appends `name=value` and the pending separator for each set field, in the fixed order. */
    method GetQuery() returns (query: string)
      ensures query == Query(Options())
    {
      query := "";
      var nextChar := "?";
      if page != 0 {
        query := query + "page=" + IntToString(page as int) + nextChar;
        nextChar := "&";
      }
      if perPage != 0 {
        query := query + "perPage=" + IntToString(perPage as int) + nextChar;
        nextChar := "&";
      }
      if sort.Some? {
        query := query + "sort=" + sort.value + nextChar;
        nextChar := "&";
      }
      assert query == QueryHead(Options()) && nextChar == HeadNextChar(Options());
      if filter.Some? {
        query := query + "filter=" + filter.value + nextChar;
        nextChar := "&";
      }
      if skipTotal {
        query := query + "skipTotal=" + BoolToString(skipTotal) + nextChar;
      }
      QueryTextIsQuery(Options());
    }
  }

  // ---------------------------------------------------------------------------------
  // Filter expression builder
  // ---------------------------------------------------------------------------------

  /** `RecordQuery.FilterBuilder.Operators`: a closed set of comparison and logical tokens. */
  datatype Operator =
    | Equal | NotEqual | GreaterThan | LessThan | GreaterThanOrEqual | LessThanOrEqual
    | Like | NotLike | And | Or
    | AnyEqual | AnyNotEqual | AnyLike | AnyNotLike
    | AnyGreaterThan | AnyLessThan | AnyGreaterThanOrEqual | AnyLessThanOrEqual

  /** Every operator, in declaration order. */
  const AllOperators: seq<Operator> := [
    Equal, NotEqual, GreaterThan, LessThan, GreaterThanOrEqual, LessThanOrEqual,
    Like, NotLike, And, Or,
    AnyEqual, AnyNotEqual, AnyLike, AnyNotLike,
    AnyGreaterThan, AnyLessThan, AnyGreaterThanOrEqual, AnyLessThanOrEqual]

  /** `getOperator()`: the token written into the filter. */
  function Token(op: Operator): (t: string)
    ensures 1 <= |t| <= 3
    ensures t[0] == '?' <==> IsAnyOperator(op)
  {
    match op
    case Equal => "="
    case NotEqual => "!="
    case GreaterThan => ">"
    case LessThan => "<"
    case GreaterThanOrEqual => ">="
    case LessThanOrEqual => "<="
    case Like => "~"
    case NotLike => "!~"
    case And => "&&"
    case Or => "||"
    case AnyEqual => "?="
    case AnyNotEqual => "?!="
    case AnyLike => "?~"
    case AnyNotLike => "?!~"
    case AnyGreaterThan => "?>"
    case AnyLessThan => "?<"
    case AnyGreaterThanOrEqual => "?>="
    case AnyLessThanOrEqual => "?<="
  }

  /** Reads a token back: the operator whose token is `s`, if there is one. */
  function ParseOperator(s: string): Option<Operator> {
    if |s| == 0 then None
    else if s[0] == '?' then
      match ParseOperator(s[1..])
      case Some(op) => AnyVariant(op)
      case None => None
    else if s == "=" then Some(Equal)
    else if s == "!=" then Some(NotEqual)
    else if s == ">" then Some(GreaterThan)
    else if s == "<" then Some(LessThan)
    else if s == ">=" then Some(GreaterThanOrEqual)
    else if s == "<=" then Some(LessThanOrEqual)
    else if s == "~" then Some(Like)
    else if s == "!~" then Some(NotLike)
    else if s == "&&" then Some(And)
    else if s == "||" then Some(Or)
    else None
  }

  /** The eight operators that have an "any of the array" variant. */
  predicate HasAnyVariant(op: Operator) {
    op.Equal? || op.NotEqual? || op.GreaterThan? || op.LessThan? ||
    op.GreaterThanOrEqual? || op.LessThanOrEqual? || op.Like? || op.NotLike?
  }

  predicate IsAnyOperator(op: Operator) {
    op.AnyEqual? || op.AnyNotEqual? || op.AnyLike? || op.AnyNotLike? ||
    op.AnyGreaterThan? || op.AnyLessThan? || op.AnyGreaterThanOrEqual? || op.AnyLessThanOrEqual?
  }

  /** The `ANY_` counterpart of a comparison or like operator. */
  function AnyVariant(op: Operator): Option<Operator> {
    match op
    case Equal => Some(AnyEqual)
    case NotEqual => Some(AnyNotEqual)
    case GreaterThan => Some(AnyGreaterThan)
    case LessThan => Some(AnyLessThan)
    case GreaterThanOrEqual => Some(AnyGreaterThanOrEqual)
    case LessThanOrEqual => Some(AnyLessThanOrEqual)
    case Like => Some(AnyLike)
    case NotLike => Some(AnyNotLike)
    case _ => None
  }

  /** Every token reads back as its own operator. */
  lemma TokenRoundTrip(op: Operator)
    ensures ParseOperator(Token(op)) == Some(op)
  {
    match op
    case AnyEqual => assert Token(op)[1..] == Token(Equal);
    case AnyNotEqual => assert Token(op)[1..] == Token(NotEqual);
    case AnyLike => assert Token(op)[1..] == Token(Like);
    case AnyNotLike => assert Token(op)[1..] == Token(NotLike);
    case AnyGreaterThan => assert Token(op)[1..] == Token(GreaterThan);
    case AnyLessThan => assert Token(op)[1..] == Token(LessThan);
    case AnyGreaterThanOrEqual => assert Token(op)[1..] == Token(GreaterThanOrEqual);
    case AnyLessThanOrEqual => assert Token(op)[1..] == Token(LessThanOrEqual);
    case _ =>
  }

  /** The eighteen tokens are pairwise distinct. */
  lemma TokensDistinct(a: Operator, b: Operator)
    ensures Token(a) == Token(b) ==> a == b
  {
    TokenRoundTrip(a);
    TokenRoundTrip(b);
  }

  /** The position of an operator among the eighteen, as the enum's `ordinal()` gives it. */
  function Ordinal(op: Operator): nat {
    match op
    case Equal => 0
    case NotEqual => 1
    case GreaterThan => 2
    case LessThan => 3
    case GreaterThanOrEqual => 4
    case LessThanOrEqual => 5
    case Like => 6
    case NotLike => 7
    case And => 8
    case Or => 9
    case AnyEqual => 10
    case AnyNotEqual => 11
    case AnyLike => 12
    case AnyNotLike => 13
    case AnyGreaterThan => 14
    case AnyLessThan => 15
    case AnyGreaterThanOrEqual => 16
    case AnyLessThanOrEqual => 17
  }

  /** There are eighteen operators, each listed once, at its ordinal. */
  lemma OperatorsListed(op: Operator)
    ensures |AllOperators| == 18
    ensures Ordinal(op) < 18 && AllOperators[Ordinal(op)] == op
    ensures forall i :: 0 <= i < |AllOperators| ==> Ordinal(AllOperators[i]) == i
  {
  }

  /**
   * Exactly the eight comparison and like operators have an `ANY_` variant, whose token is
   * theirs with '?' in front; the `ANY_` operators are exactly those variants.
   */
  lemma AnyVariantTokens(op: Operator)
    ensures AnyVariant(op).Some? <==> HasAnyVariant(op)
    ensures AnyVariant(op).Some? ==> IsAnyOperator(AnyVariant(op).value)
    ensures AnyVariant(op).Some? ==> Token(AnyVariant(op).value) == "?" + Token(op)
    ensures IsAnyOperator(op) ==> exists base :: AnyVariant(base) == Some(op)
  {
    if IsAnyOperator(op) {
      var base := match op
        case AnyEqual => Equal
        case AnyNotEqual => NotEqual
        case AnyLike => Like
        case AnyNotLike => NotLike
        case AnyGreaterThan => GreaterThan
        case AnyLessThan => LessThan
        case AnyGreaterThanOrEqual => GreaterThanOrEqual
        case _ => LessThanOrEqual;
      assert AnyVariant(base) == Some(op);
    }
  }

  /** A clause as `add` writes it: field, token, value, with Java's "null" for a null string. */
  function Clause(field: Option<string>, op: Operator, value: Option<string>): (c: string)
    ensures var f := ConcatText(field); var v := ConcatText(value);
      && |c| == |f| + |Token(op)| + |v|
      && c[..|f|] == f && c[|f|..|c| - |v|] == Token(op) && c[|c| - |v|..] == v
    ensures ParseOperator(c[|ConcatText(field)|..|c| - |ConcatText(value)|]) == Some(op)
  {
    TokenRoundTrip(op);
    ConcatText(field) + Token(op) + ConcatText(value)
  }

  /** Each clause preceded by " && ", the first one included. */
  function AndPrefixed(clauses: seq<string>): string {
    if clauses == [] then "" else " && " + clauses[0] + AndPrefixed(clauses[1..])
  }

  /**
   * What `build()` returns for the clauses in the list: a parenthesised text that, as soon as
   * there is a clause, opens with " && ".
   */
  function Expression(clauses: seq<string>): (e: string)
    ensures |e| >= 2 && e[0] == '(' && e[|e| - 1] == ')'
    ensures clauses != [] ==> |e| >= 6 && e[1..5] == " && "
  {
    "(" + AndPrefixed(clauses) + ")"
  }

  /** Sum over the clauses of their length plus four for the " && " before each. */
  function ClausesLength(clauses: seq<string>): nat {
    if clauses == [] then 0 else 4 + |clauses[0]| + ClausesLength(clauses[1..])
  }

  lemma {:induction false} AndPrefixedSnoc(clauses: seq<string>, c: string)
    ensures AndPrefixed(clauses + [c]) == AndPrefixed(clauses) + " && " + c
    decreases |clauses|
  {
    if clauses == [] {
      assert clauses + [c] == [c];
    } else {
      assert (clauses + [c])[1..] == clauses[1..] + [c];
      AndPrefixedSnoc(clauses[1..], c);
    }
  }

  /** An empty list builds "()"; otherwise the length is 2 plus 4 and the clause's length per clause. */
  lemma {:induction false} ExpressionLength(clauses: seq<string>)
    ensures |Expression(clauses)| == 2 + ClausesLength(clauses)
    ensures clauses == [] ==> Expression(clauses) == "()"
    decreases |clauses|
  {
    if clauses != [] {
      ExpressionLength(clauses[1..]);
    }
  }

  /** Adding a clause and building again inserts " && " and the clause before the closing ')'. */
  lemma ExpressionAfterAdd(clauses: seq<string>, c: string)
    ensures var e := Expression(clauses);
      Expression(clauses + [c]) == e[..|e| - 1] + " && " + c + ")"
  {
    AndPrefixedSnoc(clauses, c);
    var e := Expression(clauses);
    assert e[..|e| - 1] == "(" + AndPrefixed(clauses);
  }

  /**
   * The text `StringBuilder.append(String)` writes for each item of the list, "null" for a
   * null item.
   */
  function ItemTexts(items: seq<Option<string>>): (texts: seq<string>)
    ensures |texts| == |items|
    ensures forall i :: 0 <= i < |items| ==> texts[i] == ConcatText(items[i])
  {
    if items == [] then [] else [ConcatText(items[0])] + ItemTexts(items[1..])
  }

  /**
   * The caller's `List<String>`, which the builder keeps a reference to and appends to. Its
   * items may be null.
   */
  class ClauseList {
    var items: seq<Option<string>>

    constructor (items: seq<Option<string>>)
      ensures this.items == items
    {
      this.items := items;
    }
  }

  /** `RecordQuery.FilterBuilder`. */
  class FilterBuilder {
    const filter: ClauseList

    constructor (filter: ClauseList)
      ensures this.filter == filter
    {
      this.filter := filter;
    }

    /** Appends `field + token + value` to the shared list and returns this builder. */
    method Add(field: Option<string>, operator: Operator, value: Option<string>) returns (self: FilterBuilder)
      modifies filter
      ensures filter.items == old(filter.items) + [Some(Clause(field, operator, value))]
      ensures self == this
    {
      filter.items := filter.items + [Some(ConcatText(field) + Token(operator) + ConcatText(value))];
      self := this;
    }

    /** Writes "(", then " && " and the item for each item in the list, then ")". */
    method Build() returns (expression: string)
      ensures expression == Expression(ItemTexts(filter.items))
    {
      var items := filter.items;
      var sb := "(";
      for i := 0 to |items|
        invariant sb == "(" + AndPrefixed(ItemTexts(items[..i]))
      {
        AndPrefixedSnoc(ItemTexts(items[..i]), ConcatText(items[i]));
        assert ItemTexts(items[..i + 1]) == ItemTexts(items[..i]) + [ConcatText(items[i])];
        sb := sb + " && " + ConcatText(items[i]);
      }
      assert items[..|items|] == items;
      expression := sb + ")";
    }
  }

  // ---------------------------------------------------------------------------------
  // Status codes
  // ---------------------------------------------------------------------------------

  /** The exceptions a status code is turned into, with their messages. */
  datatype ApiError =
    | InvalidFilter(message: string)
    | CollectionNotFound(message: string)
    | InternalServerError
    | TokenAuthFail(nullableMessage: Option<string>)

  /**
   * Either the branch is passed (a read then reads the response body, `sendData` returns to
   * its caller), or an exception is thrown.
   */
  datatype StatusCheck = Proceed | Raise(error: ApiError)

  const InvalidFilterMessage: string := "Invalid filter"
  const CollectionNotFoundMessage: string := "Collection not found"
  const MissingAuthRecordMessage: string := "Missing auth record context."

  /** The check `getJson`, `listen` and `sendData` apply to the response code. */
  function CheckStatus(code: Int32): (r: StatusCheck)
    ensures 200 <= code < 300 ==> r == Proceed
    ensures r.Raise? ==> 400 <= code <= 500
  {
    if code == 400 then Raise(InvalidFilter(InvalidFilterMessage))
    else if code == 404 then Raise(CollectionNotFound(CollectionNotFoundMessage))
    else if code == 500 then Raise(InternalServerError)
    else Proceed
  }

  /** The check `authRefresh` applies to the response code. */
  function CheckRefreshStatus(code: Int32): (r: StatusCheck)
    ensures 200 <= code < 300 ==> r == Proceed
    ensures r.Raise? ==> 400 <= code <= 500
  {
    if code == 401 then Raise(TokenAuthFail(None))
    else if code == 404 then Raise(CollectionNotFound(MissingAuthRecordMessage))
    else if code == 500 then Raise(InternalServerError)
    else Proceed
  }

  /**
   * Reads and writes: 400, 404 and 500 fail, every other code (401 included) passes the
   * branch.
   */
  lemma StatusTable(code: Int32)
    ensures CheckStatus(code) == Proceed <==> code != 400 && code != 404 && code != 500
    ensures CheckStatus(code) == Raise(InvalidFilter("Invalid filter")) <==> code == 400
    ensures CheckStatus(code) == Raise(CollectionNotFound("Collection not found")) <==> code == 404
    ensures CheckStatus(code) == Raise(InternalServerError) <==> code == 500
    ensures !(CheckStatus(code).Raise? && CheckStatus(code).error.TokenAuthFail?)
  {
  }

  /** Auth refresh: 401, 404 and 500 fail, every other code (400 included) passes the branch. */
  lemma RefreshStatusTable(code: Int32)
    ensures CheckRefreshStatus(code) == Proceed <==> code != 401 && code != 404 && code != 500
    ensures CheckRefreshStatus(code) == Raise(TokenAuthFail(None)) <==> code == 401
    ensures CheckRefreshStatus(code) == Raise(CollectionNotFound("Missing auth record context.")) <==> code == 404
    ensures CheckRefreshStatus(code) == Raise(InternalServerError) <==> code == 500
    ensures !(CheckRefreshStatus(code).Raise? && CheckRefreshStatus(code).error.InvalidFilter?)
  {
  }

  /** The two tables decide differently on exactly 400, 401 and 404. */
  lemma StatusTablesDiffer(code: Int32)
    ensures CheckStatus(code) != CheckRefreshStatus(code) <==> code == 400 || code == 401 || code == 404
  {
  }

  // ---------------------------------------------------------------------------------
  // User payloads
  // ---------------------------------------------------------------------------------

  /** `PreparedUser`: the attributes of a user to create; strings may be null. */
  datatype PreparedUser = PreparedUser(
    username: Option<string>,
    password: Option<string>,
    passwordConfirm: Option<string>,
    email: Option<string>,
    emailVisibility: bool,
    verified: bool,
    name: Option<string>)

  /** `PreparedUserUpdate`: the attributes of a user to update; strings may be null. */
  datatype PreparedUserUpdate = PreparedUserUpdate(
    username: Option<string>,
    password: Option<string>,
    passwordConfirm: Option<string>,
    email: Option<string>,
    emailVisibility: bool,
    verified: bool,
    name: Option<string>)

  datatype JsonValue = JsonString(text: string) | JsonBool(flag: bool)

  /** One member of a JSON object, in the order the object builder received it. */
  datatype JsonMember = JsonMember(key: string, value: JsonValue)

  /** The keys both payloads are built with, in order. */
  const UserKeys: seq<string> := ["username", "password", "passwordConfirm", "email", "emailVisibility", "verified", "name"]

  /** `s == null ? "" : s` */
  function OrEmpty(s: Option<string>): string {
    if s.None? then "" else s.value
  }

  /** The body `updateUser` builds. */
  function UpdatePayload(u: PreparedUserUpdate): (p: seq<JsonMember>)
    ensures |p| == |UserKeys|
    ensures forall i :: 0 <= i < |p| ==> p[i].key == UserKeys[i]
    ensures forall i :: 0 <= i < |p| ==> (p[i].value.JsonBool? <==> i == 4 || i == 5)
  {
    [ JsonMember("username", JsonString(OrEmpty(u.username))),
      JsonMember("password", JsonString(OrEmpty(u.password))),
      JsonMember("passwordConfirm", JsonString(OrEmpty(u.passwordConfirm))),
      JsonMember("email", JsonString(OrEmpty(u.email))),
      JsonMember("emailVisibility", JsonBool(u.emailVisibility)),
      JsonMember("verified", JsonBool(u.verified)),
      JsonMember("name", JsonString(OrEmpty(u.name))) ]
  }

  /**
   * The body `postJson` builds, or None where a null string makes the JSON object builder
   * throw a NullPointerException.
   */
  function CreatePayload(u: PreparedUser): (r: Option<seq<JsonMember>>)
    ensures r.Some? ==> |r.value| == |UserKeys|
    ensures r.Some? ==> forall i :: 0 <= i < |r.value| ==> r.value[i].key == UserKeys[i]
  {
    if u.username.None? || u.password.None? || u.passwordConfirm.None? || u.email.None? || u.name.None? then None
    else Some([
      JsonMember("username", JsonString(u.username.value)),
      JsonMember("password", JsonString(u.password.value)),
      JsonMember("passwordConfirm", JsonString(u.passwordConfirm.value)),
      JsonMember("email", JsonString(u.email.value)),
      JsonMember("emailVisibility", JsonBool(u.emailVisibility)),
      JsonMember("verified", JsonBool(u.verified)),
      JsonMember("name", JsonString(u.name.value)) ])
  }

  /** What is left of an update once null strings are sent as "". */
  function Blanked(u: PreparedUserUpdate): PreparedUserUpdate {
    u.(username := Some(OrEmpty(u.username)), password := Some(OrEmpty(u.password)),
       passwordConfirm := Some(OrEmpty(u.passwordConfirm)), email := Some(OrEmpty(u.email)),
       name := Some(OrEmpty(u.name)))
  }

  /** A user to create, read as the same attributes of an update. */
  function AsUpdate(u: PreparedUser): PreparedUserUpdate {
    PreparedUserUpdate(u.username, u.password, u.passwordConfirm, u.email, u.emailVisibility, u.verified, u.name)
  }

  /** The seven keys are distinct. */
  lemma UserKeysDistinct()
    ensures forall i, j :: 0 <= i < j < |UserKeys| ==> UserKeys[i] != UserKeys[j]
  {
  }

  /**
   * The update body has exactly the seven keys, in order; every string is the field's text
   * or "" where the field is null, and the two flags are copied.
   */
  lemma UpdatePayloadShape(u: PreparedUserUpdate)
    ensures |UpdatePayload(u)| == |UserKeys|
    ensures forall i :: 0 <= i < |UserKeys| ==> UpdatePayload(u)[i].key == UserKeys[i]
    ensures var p := UpdatePayload(u);
      && (u.username.Some? ==> p[0].value == JsonString(u.username.value))
      && (u.username.None? ==> p[0].value == JsonString(""))
      && (u.password.Some? ==> p[1].value == JsonString(u.password.value))
      && (u.password.None? ==> p[1].value == JsonString(""))
      && (u.passwordConfirm.Some? ==> p[2].value == JsonString(u.passwordConfirm.value))
      && (u.passwordConfirm.None? ==> p[2].value == JsonString(""))
      && (u.email.Some? ==> p[3].value == JsonString(u.email.value))
      && (u.email.None? ==> p[3].value == JsonString(""))
      && p[4].value == JsonBool(u.emailVisibility)
      && p[5].value == JsonBool(u.verified)
      && (u.name.Some? ==> p[6].value == JsonString(u.name.value))
      && (u.name.None? ==> p[6].value == JsonString(""))
  {
  }

  /** Two updates send the same body exactly when they agree once null strings are read as "". */
  lemma UpdatePayloadIdentifies(u1: PreparedUserUpdate, u2: PreparedUserUpdate)
    ensures UpdatePayload(u1) == UpdatePayload(u2) <==> Blanked(u1) == Blanked(u2)
  {
    if UpdatePayload(u1) == UpdatePayload(u2) {
      assert UpdatePayload(u1)[0] == UpdatePayload(u2)[0];
      assert UpdatePayload(u1)[1] == UpdatePayload(u2)[1];
      assert UpdatePayload(u1)[2] == UpdatePayload(u2)[2];
      assert UpdatePayload(u1)[3] == UpdatePayload(u2)[3];
      assert UpdatePayload(u1)[4] == UpdatePayload(u2)[4];
      assert UpdatePayload(u1)[5] == UpdatePayload(u2)[5];
      assert UpdatePayload(u1)[6] == UpdatePayload(u2)[6];
    }
  }

  /**
   * Creation builds a body exactly when no string is null, and that body is the update body of
   * the same attributes; the two differ only in what they do with null.
   */
  lemma CreatePayloadMatchesUpdate(u: PreparedUser)
    ensures CreatePayload(u).Some? <==>
      u.username.Some? && u.password.Some? && u.passwordConfirm.Some? && u.email.Some? && u.name.Some?
    ensures CreatePayload(u).Some? ==> CreatePayload(u).value == UpdatePayload(AsUpdate(u))
  {
  }

  // ---------------------------------------------------------------------------------
  // Discrepancies: what getQuery and build evidently meant to write
  // ---------------------------------------------------------------------------------

  /** Each pair preceded by '&'. */
  function AmpPrefixed(pairs: seq<string>): string {
    if pairs == [] then "" else "&" + pairs[0] + AmpPrefixed(pairs[1..])
  }

  /** The intended query: the pairs joined by '&', with nothing after the last one. */
  function IntendedQueryText(pairs: seq<string>): string {
    if pairs == [] then "" else pairs[0] + AmpPrefixed(pairs[1..])
  }

  function IntendedQuery(o: QueryOptions): string {
    IntendedQueryText(Pairs(QueryParams(o)))
  }

  /** Pairs from the `k`-th on, each PRECEDED by its separator: a URL query after its path. */
  function SeparatedBefore(pairs: seq<string>, k: nat): string {
    if pairs == [] then "" else Separator(k) + pairs[0] + SeparatedBefore(pairs[1..], k + 1)
  }

  lemma {:induction false} SeparatedBeforeLater(pairs: seq<string>, k: nat)
    requires k >= 1
    ensures SeparatedBefore(pairs, k) == AmpPrefixed(pairs)
    decreases |pairs|
  {
    if pairs != [] {
      SeparatedBeforeLater(pairs[1..], k + 1);
    }
  }

  /**
   * With the '?' that `getUserRecords` puts in front, the intended query gives every
   * parameter exactly one separator before it: '?' before the first, '&' before the others.
   */
  lemma IntendedQueryWellFormed(o: QueryOptions)
    ensures var pairs := Pairs(QueryParams(o));
      "?" + IntendedQuery(o) == if pairs == [] then "?" else SeparatedBefore(pairs, 0)
  {
    var pairs := Pairs(QueryParams(o));
    if pairs != [] {
      SeparatedBeforeLater(pairs[1..], 1);
    }
  }

  lemma ExampleParams(o: QueryOptions)
    requires o == QueryOptions(2, 30, None, None, false)
    ensures QueryParams(o) == [Param(Page, "2"), Param(PerPage, "30")]
  {
    QueryParamsUnrolled(o);
    assert IntToString(2) == [DigitChar(2)] == "2";
    assert NatDigits(3) == [DigitChar(3)];
    assert IntToString(30) == NatDigits(3) + [DigitChar(0)] == "30";
    assert FieldParam(o, Page) == Param(Page, "2");
    assert FieldParam(o, PerPage) == Param(PerPage, "30");
  }

  lemma ExamplePairs(ps: seq<Param<Field>>)
    requires ps == [Param(Page, "2"), Param(PerPage, "30")]
    ensures Pairs(ps) == ["page=2", "perPage=30"]
  {
    assert ps[1..] == [ps[1]] && ps[1..][1..] == [];
    assert Pair(ps[0]) == "page=" + "2" == "page=2";
    assert Pair(ps[1]) == "perPage=" + "30" == "perPage=30";
  }

  lemma ExampleTexts(pairs: seq<string>)
    requires pairs == ["page=2", "perPage=30"]
    ensures Render(pairs, 0) == "page=2?perPage=30&"
    ensures IntendedQueryText(pairs) == "page=2&perPage=30"
  {
    assert pairs[1..] == ["perPage=30"] && pairs[1..][1..] == [];
    assert Render(pairs[1..], 1) == "perPage=30" + "&" + "";
    assert Render(pairs, 0) == "page=2" + "?" + ("perPage=30" + "&" + "") == "page=2?perPage=30&";
    assert AmpPrefixed(pairs[1..]) == "&" + "perPage=30" + "";
    assert IntendedQueryText(pairs) == "page=2" + ("&" + "perPage=30" + "") == "page=2&perPage=30";
  }

  /**
   * The records URL carries the path's own '?' and then the query, so every '?' in the query
   * is one more '?' in the URL.
   */
  lemma RecordsUrlMarks(query: string)
    ensures var url := RecordsUrl(query); var n := |url| - |query|;
      && url[n - 1] == '?' && url[n..] == query
      && forall i | 0 <= i < |query| && query[i] == '?' :: url[n + i] == '?'
  {
  }

  /**
   * As written, page 2 with 30 per page gives "page=2?perPage=30&", so the records URL
   * carries a second '?'; the intended query is "page=2&perPage=30".
   */
  lemma QueryAsWrittenExample()
    ensures var o := QueryOptions(2, 30, None, None, false);
      && Query(o) == "page=2?perPage=30&"
      && IntendedQuery(o) == "page=2&perPage=30"
      && Query(o) != IntendedQuery(o)
      && (var url := RecordsUrl(Query(o)); var n := |url| - |Query(o)|;
          url[n - 1] == '?' && url[n..] == Query(o) && url[n + 6] == '?')
  {
    var o := QueryOptions(2, 30, None, None, false);
    ExampleParams(o);
    ExamplePairs(QueryParams(o));
    ExampleTexts(Pairs(QueryParams(o)));
    RecordsUrlMarks(Query(o));
    assert Query(o)[6] == '?';
  }

  /** The clauses joined by " && ": a separator between clauses, none before the first. */
  function Joined(clauses: seq<string>): string {
    if clauses == [] then "" else clauses[0] + AndPrefixed(clauses[1..])
  }

  /** The intended expression: the joined clauses inside parentheses. */
  function IntendedExpression(clauses: seq<string>): string {
    "(" + Joined(clauses) + ")"
  }

  /** As written, a non-empty list builds the intended expression with an extra " && " after '('. */
  lemma BuildLeadingSeparator(clauses: seq<string>)
    requires clauses != []
    ensures Expression(clauses) == "(" + " && " + Joined(clauses) + ")"
  {
  }

  lemma ExampleExpression(cs: seq<string>)
    requires cs == ["a>1", "b<2"]
    ensures Expression(cs) == "( && a>1 && b<2)"
  {
    assert cs[1..] == ["b<2"] && cs[1..][1..] == [];
    assert AndPrefixed(cs[1..]) == " && " + "b<2" + "";
    assert AndPrefixed(cs) == " && " + "a>1" + (" && " + "b<2" + "");
  }

  lemma ExampleIntended(cs: seq<string>)
    requires cs == ["a>1", "b<2"]
    ensures IntendedExpression(cs) == "(a>1 && b<2)"
  {
    assert cs[1..] == ["b<2"] && cs[1..][1..] == [];
    assert AndPrefixed(cs[1..]) == " && " + "b<2" + "";
    assert Joined(cs) == "a>1" + (" && " + "b<2" + "");
  }

  /** As written, the clauses a>1 and b<2 build "( && a>1 && b<2)" where "(a>1 && b<2)" is meant. */
  lemma BuildAsWrittenExample()
    ensures Expression(["a>1", "b<2"]) == "( && a>1 && b<2)"
    ensures IntendedExpression(["a>1", "b<2"]) == "(a>1 && b<2)"
  {
    ExampleExpression(["a>1", "b<2"]);
    ExampleIntended(["a>1", "b<2"]);
  }

  /**
   * The intended expression opens with the first clause and spends one " && " per clause
   * after the first: it is four characters shorter than what `build` writes.
   */
  lemma IntendedExpressionShape(clauses: seq<string>)
    requires clauses != []
    ensures Joined(clauses)[..|clauses[0]|] == clauses[0]
    ensures |IntendedExpression(clauses)| + 4 == |Expression(clauses)|
  {
    ExpressionLength(clauses);
    ExpressionLength(clauses[1..]);
  }
}
