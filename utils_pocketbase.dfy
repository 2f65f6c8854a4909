/**
 * The record query of the second client class, Utils/Pocketbase.java: a `RecordQuery`
 * with hand-written getters and setters whose `getQuery` writes `name=value&` for every
 * parameter that is set, over seven fields instead of five.
 */
module UtilsPocketbase {
  import opened Wrappers
  import opened JavaText
  import opened QueryParts

  /** The state of a `RecordQuery`: zero and null mean "not specified". */
  datatype QueryOptions = QueryOptions(
    page: Int32,
    perPage: Int32,
    sort: Option<string>,
    filter: Option<string>,
    expand: Option<string>,
    fields: Option<string>,
    skipTotal: bool)

  /** The query parameters this `RecordQuery` knows. */
  datatype Field = Page | PerPage | Sort | Filter | Expand | Fields | SkipTotal

  /** The text written before each field's value: the parameter name and '='. */
  function Prefix(f: Field): string {
    match f
    case Page => "page="
    case PerPage => "perPage="
    case Sort => "sort="
    case Filter => "filter="
    case Expand => "expand="
    case Fields => "fields="
    case SkipTotal => "skipTotal="
  }

  /** The order in which `getQuery` considers the fields. */
  const FieldOrder: seq<Field> := [Page, PerPage, Sort, Filter, Expand, Fields, SkipTotal]

  /**
   * The text a parameter should carry, field by field: the decimal number for a non-zero
   * page or perPage, the string itself for a non-null sort, filter, expand or fields, and
   * "true" for skipTotal; None for a field that is not set.
   */
  function FieldValue(o: QueryOptions, f: Field): Option<string> {
    match f
    case Page => if o.page != 0 then Some(IntToString(o.page as int)) else None
    case PerPage => if o.perPage != 0 then Some(IntToString(o.perPage as int)) else None
    case Sort => o.sort
    case Filter => o.filter
    case Expand => o.expand
    case Fields => o.fields
    case SkipTotal => if o.skipTotal then Some("true") else None
  }

  /** The fields among `fs` that are set in `o`, in the order given. */
  function FieldsSet(o: QueryOptions, fs: seq<Field>): seq<Field> {
    if fs == [] then []
    else FieldsSet(o, fs[..|fs| - 1]) + if FieldValue(o, fs[|fs| - 1]).Some? then [fs[|fs| - 1]] else []
  }

  predicate NothingSet(o: QueryOptions) {
    o.page == 0 && o.perPage == 0 && o.sort.None? && o.filter.None? &&
    o.expand.None? && o.fields.None? && !o.skipTotal
  }

  /** The parameter for field `f`, written when the field is set. */
  function FieldParam(o: QueryOptions, f: Field): Param<Field> {
    Param(f, FieldValue(o, f).GetOr(""))
  }

  /** Considering the fields `fs` in turn, append a parameter for each one that is set. */
  function ParamsOf(o: QueryOptions, fs: seq<Field>): seq<Param<Field>> {
    if fs == [] then []
    else
      var f := fs[|fs| - 1];
      Emit(ParamsOf(o, fs[..|fs| - 1]), FieldValue(o, f).Some?, FieldParam(o, f))
  }

  /** The parameters `getQuery` writes, in the order it writes them. */
  function QueryParams(o: QueryOptions): seq<Param<Field>> {
    ParamsOf(o, FieldOrder)
  }

  /** `name=value`, with no encoding of either side. */
  function Pair(p: Param<Field>): string {
    Prefix(p.key) + p.value
  }

  /** The pair of every parameter, in order. */
  function Pairs(ps: seq<Param<Field>>): (pairs: seq<string>)
    ensures |pairs| == |ps|
  {
    if ps == [] then [] else [Pair(ps[0])] + Pairs(ps[1..])
  }

  lemma {:induction false} PairsSnoc(ps: seq<Param<Field>>, p: Param<Field>)
    ensures Pairs(ps + [p]) == Pairs(ps) + [Pair(p)]
    decreases |ps|
  {
    if ps == [] {
      assert ps + [p] == [p];
    } else {
      assert (ps + [p])[1..] == ps[1..] + [p];
      PairsSnoc(ps[1..], p);
    }
  }

  /**
   * What `getQuery` returns for the state `o`: every pair followed by '&'; empty exactly when
   * no parameter is written.
   */
  function Query(o: QueryOptions): (q: string)
    ensures q == "" <==> QueryParams(o) == []
  {
    Terminated(Pairs(QueryParams(o)))
  }

  /** Different fields are written under different names. */
  lemma PrefixInjective(f: Field, g: Field)
    ensures Prefix(f) == Prefix(g) ==> f == g
  {
  }

  /**
   * One conditional append of `getQuery`: when the field is set, its pair and a '&' extend
   * the text; otherwise the text is unchanged.
   */
  lemma AppendStep(query: string, ps: seq<Param<Field>>, cond: bool, p: Param<Field>)
    requires query == Terminated(Pairs(ps))
    ensures Terminated(Pairs(Emit(ps, cond, p))) ==
      if cond then query + Pair(p) + "&" else query
  {
    if cond {
      assert Emit(ps, cond, p) == ps + [p];
      PairsSnoc(ps, p);
      TerminatedSnoc(Pairs(ps), Pair(p));
    } else {
      assert Emit(ps, cond, p) == ps;
    }
  }

  /**
   * The text `getQuery` holds once it has considered the first `k` fields: the text before,
   * then `name=`, the value and '&' when the `k`-th field is set.
   */
  function Written(o: QueryOptions, k: nat): string
    requires k <= |FieldOrder|
  {
    if k == 0 then ""
    else
      var f := FieldOrder[k - 1];
      AppendIf(Written(o, k - 1), FieldValue(o, f).Some?, Prefix(f), FieldValue(o, f).GetOr(""), "&")
  }

  /** What is written for the first `k` fields is the query of the parameters they give. */
  lemma {:induction false} WrittenParams(o: QueryOptions, k: nat)
    requires k <= |FieldOrder|
    ensures Written(o, k) == Terminated(Pairs(ParamsOf(o, FieldOrder[..k])))
  {
    if k > 0 {
      var f := FieldOrder[k - 1];
      var ps := ParamsOf(o, FieldOrder[..k - 1]);
      var q, isSet, fp := Written(o, k - 1), FieldValue(o, f).Some?, FieldParam(o, f);
      WrittenParams(o, k - 1);
      assert FieldOrder[..k][..k - 1] == FieldOrder[..k - 1];
      assert ParamsOf(o, FieldOrder[..k]) == Emit(ps, isSet, fp);
      assert Written(o, k) == AppendIf(q, isSet, Prefix(f), fp.value, "&");
      AppendStep(q, ps, isSet, fp);
      if isSet {
        AppendAssoc(q, Prefix(f), fp.value);
      }
    }
  }

  /** Once every field is considered, the text is the query. */
  lemma WrittenAll(o: QueryOptions)
    ensures Written(o, |FieldOrder|) == Query(o)
  {
    WrittenParams(o, |FieldOrder|);
    assert FieldOrder[..|FieldOrder|] == FieldOrder;
  }

  /** The text after the first four appends (page, perPage, sort, filter). */
  function QueryHead(o: QueryOptions): string {
    var q1 := AppendIf("", o.page != 0, "page=", IntToString(o.page as int), "&");
    var q2 := AppendIf(q1, o.perPage != 0, "perPage=", IntToString(o.perPage as int), "&");
    var q3 := AppendIf(q2, o.sort.Some?, "sort=", o.sort.GetOr(""), "&");
    AppendIf(q3, o.filter.Some?, "filter=", o.filter.GetOr(""), "&")
  }

  /** The query text built by seven conditional appends, one per field in declaration order. */
  function QueryText(o: QueryOptions): string {
    var q4 := QueryHead(o);
    var q5 := AppendIf(q4, o.expand.Some?, "expand=", o.expand.GetOr(""), "&");
    var q6 := AppendIf(q5, o.fields.Some?, "fields=", o.fields.GetOr(""), "&");
    AppendIf(q6, o.skipTotal, "skipTotal=", BoolToString(o.skipTotal), "&")
  }

  /** The first four appends leave the text of the first four fields. */
  lemma QueryHeadIsWritten(o: QueryOptions)
    ensures QueryHead(o) == Written(o, 4)
  {
    var q1 := AppendIf("", o.page != 0, "page=", IntToString(o.page as int), "&");
    assert q1 == Written(o, 1);
    var q2 := AppendIf(q1, o.perPage != 0, "perPage=", IntToString(o.perPage as int), "&");
    assert q2 == Written(o, 2);
    var q3 := AppendIf(q2, o.sort.Some?, "sort=", o.sort.GetOr(""), "&");
    assert q3 == Written(o, 3);
  }

  /** The seven appends produce exactly the parameters that are set, each followed by '&'. */
  lemma QueryTextIsQuery(o: QueryOptions)
    ensures QueryText(o) == Query(o)
  {
    QueryHeadIsWritten(o);
    var q5 := AppendIf(QueryHead(o), o.expand.Some?, "expand=", o.expand.GetOr(""), "&");
    assert q5 == Written(o, 5);
    var q6 := AppendIf(q5, o.fields.Some?, "fields=", o.fields.GetOr(""), "&");
    assert q6 == Written(o, 6);
    assert QueryText(o) == Written(o, 7);
    WrittenAll(o);
  }

  /** The parameters are the fields that are set, in the order considered. */
  lemma {:induction false} ParamsOfKeys(o: QueryOptions, fs: seq<Field>)
    ensures Keys(ParamsOf(o, fs)) == FieldsSet(o, fs)
    decreases |fs|
  {
    if fs != [] {
      var f := fs[|fs| - 1];
      ParamsOfKeys(o, fs[..|fs| - 1]);
      KeysEmit(ParamsOf(o, fs[..|fs| - 1]), FieldValue(o, f).Some?, FieldParam(o, f));
    }
  }

  /** Among distinct fields, each one considered is found with the value its field dictates. */
  lemma {:induction false} ParamsOfLookup(o: QueryOptions, fs: seq<Field>, g: Field)
    requires forall i, j :: 0 <= i < j < |fs| ==> fs[i] != fs[j]
    ensures Lookup(ParamsOf(o, fs), g) == if g in fs then FieldValue(o, g) else None
    decreases |fs|
  {
    if fs != [] {
      var f := fs[|fs| - 1];
      ParamsOfLookup(o, fs[..|fs| - 1], g);
      LookupEmit(ParamsOf(o, fs[..|fs| - 1]), FieldValue(o, f).Some?, FieldParam(o, f), g);
      assert g in fs <==> g in fs[..|fs| - 1] || g == f;
    }
  }

  /** The parameters of `getQuery`, unrolled into its seven conditional appends. */
  lemma QueryParamsUnrolled(o: QueryOptions)
    ensures QueryParams(o) ==
      Emit(Emit(Emit(Emit(Emit(Emit(Emit([],
        o.page != 0, FieldParam(o, Page)),
        o.perPage != 0, FieldParam(o, PerPage)),
        o.sort.Some?, FieldParam(o, Sort)),
        o.filter.Some?, FieldParam(o, Filter)),
        o.expand.Some?, FieldParam(o, Expand)),
        o.fields.Some?, FieldParam(o, Fields)),
        o.skipTotal, FieldParam(o, SkipTotal))
  {
    var fs1, fs2, fs3 := [Page], [Page, PerPage], [Page, PerPage, Sort];
    var fs4, fs5, fs6 := [Page, PerPage, Sort, Filter], [Page, PerPage, Sort, Filter, Expand],
      [Page, PerPage, Sort, Filter, Expand, Fields];
    assert fs1[..0] == [] && fs2[..1] == fs1 && fs3[..2] == fs2 && fs4[..3] == fs3;
    assert fs5[..4] == fs4 && fs6[..5] == fs5 && FieldOrder[..6] == fs6;
    var p1 := Emit([], o.page != 0, FieldParam(o, Page));
    assert ParamsOf(o, fs1) == p1;
    var p2 := Emit(p1, o.perPage != 0, FieldParam(o, PerPage));
    assert ParamsOf(o, fs2) == p2;
    var p3 := Emit(p2, o.sort.Some?, FieldParam(o, Sort));
    assert ParamsOf(o, fs3) == p3;
    var p4 := Emit(p3, o.filter.Some?, FieldParam(o, Filter));
    assert ParamsOf(o, fs4) == p4;
    var p5 := Emit(p4, o.expand.Some?, FieldParam(o, Expand));
    assert ParamsOf(o, fs5) == p5;
    var p6 := Emit(p5, o.fields.Some?, FieldParam(o, Fields));
    assert ParamsOf(o, fs6) == p6;
  }

  /** Exactly the set fields are written, in the fixed order of `FieldOrder`. */
  lemma QueryParamKeys(o: QueryOptions)
    ensures Keys(QueryParams(o)) == FieldsSet(o, FieldOrder)
  {
    ParamsOfKeys(o, FieldOrder);
  }

  /** Each field is looked up to the value it dictates: set fields with their text, unset ones absent. */
  lemma QueryParamValues(o: QueryOptions, f: Field)
    ensures Lookup(QueryParams(o), f) == FieldValue(o, f)
  {
    ParamsOfLookup(o, FieldOrder, f);
  }

  /** The query is empty exactly when no parameter is set, and otherwise ends in '&'. */
  lemma QueryShape(o: QueryOptions)
    ensures Query(o) == "" <==> NothingSet(o)
    ensures Query(o) != "" ==> Query(o)[|Query(o)| - 1] == '&'
  {
    QueryParamsUnrolled(o);
    assert QueryParams(o) == [] <==> NothingSet(o);
    TerminatedShape(Pairs(QueryParams(o)));
  }

  /** skipTotal, when set, is the last parameter written: the query ends in "skipTotal=true&". */
  lemma SkipTotalLast(o: QueryOptions)
    requires o.skipTotal
    ensures Query(o) == Terminated(Pairs(ParamsOf(o, FieldOrder[..6]))) + "skipTotal=true&"
  {
    var ps := ParamsOf(o, FieldOrder[..6]);
    assert QueryParams(o) == ps + [Param(SkipTotal, "true")];
    PairsSnoc(ps, Param(SkipTotal, "true"));
    TerminatedSnoc(Pairs(ps), Pair(Param(SkipTotal, "true")));
    assert Pair(Param(SkipTotal, "true")) + "&" == "skipTotal=true&";
  }

  /** The query holds one `name=value&` segment per set field and nothing else. */
  lemma QueryLength(o: QueryOptions)
    ensures |QueryParams(o)| == |FieldsSet(o, FieldOrder)|
    ensures |Query(o)| == SegmentsLength(Pairs(QueryParams(o)))
  {
    QueryParamKeys(o);
    TerminatedLength(Pairs(QueryParams(o)));
  }

  /** A `RecordQuery` object with its getters and setters. */
  class RecordQuery {
    var page: Int32
    var perPage: Int32
    var sort: Option<string>
    var filter: Option<string>
    var expand: Option<string>
    var fields: Option<string>
    var skipTotal: bool

    /** The object's state as a value. */
    function Options(): QueryOptions
      reads this
    {
      QueryOptions(page, perPage, sort, filter, expand, fields, skipTotal)
    }

    function GetPage(): Int32 reads this { page }
    function GetPerPage(): Int32 reads this { perPage }
    function GetSort(): Option<string> reads this { sort }
    function GetFilter(): Option<string> reads this { filter }
    function GetExpand(): Option<string> reads this { expand }
    function GetFields(): Option<string> reads this { fields }
    function IsSkipTotal(): bool reads this { skipTotal }

    constructor (page: Int32, perPage: Int32, sort: Option<string>, filter: Option<string>,
                 expand: Option<string>, fields: Option<string>, skipTotal: bool)
      ensures GetPage() == page && GetPerPage() == perPage && GetSort() == sort
      ensures GetFilter() == filter && GetExpand() == expand && GetFields() == fields
      ensures IsSkipTotal() == skipTotal
    {
      this.page := page;
      this.perPage := perPage;
      this.sort := sort;
      this.filter := filter;
      this.expand := expand;
      this.fields := fields;
      this.skipTotal := skipTotal;
    }

    method SetPage(page: Int32)
      modifies this
      ensures GetPage() == page
      ensures Options() == old(Options()).(page := page)
    {
      this.page := page;
    }

    method SetPerPage(perPage: Int32)
      modifies this
      ensures GetPerPage() == perPage
      ensures Options() == old(Options()).(perPage := perPage)
    {
      this.perPage := perPage;
    }

    method SetSort(sort: Option<string>)
      modifies this
      ensures GetSort() == sort
      ensures Options() == old(Options()).(sort := sort)
    {
      this.sort := sort;
    }

    method SetFilter(filter: Option<string>)
      modifies this
      ensures GetFilter() == filter
      ensures Options() == old(Options()).(filter := filter)
    {
      this.filter := filter;
    }

    method SetExpand(expand: Option<string>)
      modifies this
      ensures GetExpand() == expand
      ensures Options() == old(Options()).(expand := expand)
    {
      this.expand := expand;
    }

    method SetFields(fields: Option<string>)
      modifies this
      ensures GetFields() == fields
      ensures Options() == old(Options()).(fields := fields)
    {
      this.fields := fields;
    }

    method SetSkipTotal(skipTotal: bool)
      modifies this
      ensures IsSkipTotal() == skipTotal
      ensures Options() == old(Options()).(skipTotal := skipTotal)
    {
      this.skipTotal := skipTotal;
    }

    /** Appends `name=value&` for each set field, in the fixed order. */
    method GetQuery() returns (query: string)
      ensures query == Query(Options())
    {
      query := "";
      if page != 0 {
        query := query + "page=" + IntToString(page as int) + "&";
      }
      if perPage != 0 {
        query := query + "perPage=" + IntToString(perPage as int) + "&";
      }
      if sort.Some? {
        query := query + "sort=" + sort.value + "&";
      }
      if filter.Some? {
        query := query + "filter=" + filter.value + "&";
      }
      assert query == QueryHead(Options());
      if expand.Some? {
        query := query + "expand=" + expand.value + "&";
      }
      if fields.Some? {
        query := query + "fields=" + fields.value + "&";
      }
      if skipTotal {
        query := query + "skipTotal=" + BoolToString(skipTotal) + "&";
      }

      QueryTextIsQuery(Options());
    }
  }
}
