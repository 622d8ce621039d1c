/** The WHERE clause GetFlats and GetFlatAd build (lotrepository.go, lines 44-79 and 173-184):
    an optional cell-id membership test, the caller's filters, the visibility restriction for
    non-owners and the listing-type test. */
module Conditions {
  import opened Text
  import opened Models

  /** A radius search is made unless longitude, latitude and radius are all zero. */
  predicate IsSpatial(long: real, lat: real, radius: int) {
    long != 0.0 || lat != 0.0 || radius != 0
  }

  /** The decimal texts of the cell ids, each read as a signed 64-bit int. */
  function CellTexts(cells: seq<CellId>): (texts: seq<string>)
    ensures |texts| == |cells|
  {
    seq(|cells|, i requires 0 <= i < |cells| => Itoa(CellIdAsInt(cells[i])))
  }

  const Where: string := "WHERE "
  const CellListOpen: string := "cell_id IN ("
  const CellListClose: string := ") AND "

  /** "WHERE cell_id IN (<ids>) AND " */
  function CellClause(cells: seq<CellId>): string {
    Where + (CellListOpen + Join(CellTexts(cells), ",") + CellListClose)
  }

  /** One caller filter: the column name with its operator and operand appended, e.g. "area>=15". */
  function FilterTerm(key: string, value: string): string {
    key + value + " AND "
  }

  /** The filter terms in the order the map is enumerated. */
  function FilterTerms(filters: map<string, string>, order: seq<string>): string
    requires Visits(order, filters)
    decreases |order|
  {
    if order == [] then ""
    else FilterTerms(filters, order[..|order| - 1]) + FilterTerm(order[|order| - 1], filters[order[|order| - 1]])
  }

  const VisibleOnly: string := "is_visible = true AND"

  function VisibilityTerm(isOwner: bool): string {
    if isOwner then "" else VisibleOnly
  }

  const TypeTest: string := " is_constructor = "

  /** The visibility restriction followed by the listing-type test. */
  function ConstructorTerm(isOwner: bool, isConstruct: bool): string {
    VisibilityTerm(isOwner) + TypeTest + FormatBool(isConstruct)
  }

  /** Where the condition starts: the cell clause for a radius search, a bare WHERE otherwise. */
  function ConditionHead(long: real, lat: real, radius: int, cells: seq<CellId>): string {
    if IsSpatial(long, lat, radius) then CellClause(cells) else Where
  }

  /** The condition in precedence order: the cell clause (or a bare WHERE), then every filter,
      then visibility and listing type. */
  ghost function Condition(long: real, lat: real, radius: int, cells: seq<CellId>,
                           filters: map<string, string>, order: seq<string>,
                           isOwner: bool, isConstruct: bool): string
    requires Visits(order, filters)
  {
    ConditionHead(long, lat, radius, cells) + FilterTerms(filters, order) + ConstructorTerm(isOwner, isConstruct)
  }

  const FlatAdHead: string := "WHERE id = $1 AND "

  /** The condition of GetFlatAd's single-row query. */
  function FlatAdCondition(isOwner: bool, isConstructor: bool): (c: string)
    ensures FlatAdHead <= c
  {
    FlatAdHead + ConstructorTerm(isOwner, isConstructor)
  }

  /** The loop of lines 48-51: the decimal text of every cell id, in order. */
  method CellIdTexts(cells: seq<CellId>) returns (cellIds: seq<string>)
    ensures cellIds == CellTexts(cells)
  {
    cellIds := [];
    var n := 0;
    while n < |cells|
      invariant 0 <= n <= |cells|
      invariant cellIds == CellTexts(cells[..n])
    {
      cellIds := cellIds + [Itoa(CellIdAsInt(cells[n]))];
      n := n + 1;
    }
    assert cells[..n] == cells;
  }

  /** The loop of lines 62-64: one "key+value AND " term per visited filter. */
  method AppendFilters(start: string, filters: map<string, string>, order: seq<string>)
    returns (condition: string)
    requires Visits(order, filters)
    ensures condition == start + FilterTerms(filters, order)
  {
    condition := start;
    var i := 0;
    while i < |order|
      invariant 0 <= i <= |order|
      invariant condition == start + FilterTerms(filters, order[..i])
    {
      var key := order[i];
      assert order[..i + 1][..i] == order[..i];
      condition := condition + (key + filters[key] + " AND ");
      i := i + 1;
    }
    assert order[..i] == order;
  }

  /** GetFlats' condition builder: grows the condition string step by step, as the source does. */
  method BuildCondition(filters: map<string, string>, order: seq<string>, isConstruct: bool,
                        long: real, lat: real, radius: int, isOwner: bool, cells: seq<CellId>)
    returns (condition: string)
    requires Enumerates(order, filters)
    ensures condition == Condition(long, lat, radius, cells, filters, order, isOwner, isConstruct)
  {
    ghost var head := ConditionHead(long, lat, radius, cells);
    condition := "";
    if long != 0.0 || lat != 0.0 || radius != 0 {
      var cellIds := CellIdTexts(cells);
      condition := Where + (CellListOpen + Join(cellIds, ",") + CellListClose);
      assert condition == head && |condition| > 0;
    }
    if |filters| > 0 {
      if condition == "" {
        condition := Where;
      }
      condition := AppendFilters(condition, filters, order);
      assert condition == head + FilterTerms(filters, order);
    } else {
      EnumerationSize(order, filters);
      assert head + FilterTerms(filters, order) == head;
    }
    ghost var withFilters := head + FilterTerms(filters, order);
    assert condition == "" ==> withFilters == Where;
    assert condition != "" ==> condition == withFilters;
    var isVisible := if isOwner then "" else VisibleOnly;
    if condition == "" {
      condition := Where + (isVisible + TypeTest + FormatBool(isConstruct));
    } else {
      condition := condition + (isVisible + TypeTest + FormatBool(isConstruct));
    }
  }

  lemma {:induction false} FilterTermsEndWithBlank(filters: map<string, string>, order: seq<string>)
    requires Visits(order, filters)
    ensures var t := FilterTerms(filters, order); t != "" ==> t[|t| - 1] == ' '
  {
  }

  /** Every visited filter's term is part of the filter text. */
  lemma {:induction false} FilterTermsContain(filters: map<string, string>, order: seq<string>, k: string)
    requires Visits(order, filters)
    requires k in order
    ensures Contains(FilterTerms(filters, order), FilterTerm(k, filters[k]))
    decreases |order|
  {
    var init := order[..|order| - 1];
    var last := order[|order| - 1];
    if k == last {
      ContainsInConcat(FilterTerms(filters, init), FilterTerm(k, filters[k]), "");
      assert FilterTerms(filters, init) + FilterTerm(k, filters[k]) + "" == FilterTerms(filters, order);
    } else {
      assert k in init by {
        var j :| 0 <= j < |order| && order[j] == k;
        assert j < |order| - 1 && init[j] == k;
      }
      FilterTermsContain(filters, init, k);
      ContainsWithin("", FilterTerms(filters, init), FilterTerm(last, filters[last]), FilterTerm(k, filters[k]));
      assert "" + FilterTerms(filters, init) + FilterTerm(last, filters[last]) == FilterTerms(filters, order);
    }
  }

  lemma PrefixOfConcat(a: string, b: string)
    ensures a <= a + b
  {
    assert (a + b)[..|a|] == a;
  }

  lemma PrefixTransitive(a: string, b: string, c: string)
    requires a <= b
    ensures a <= b + c
  {
    assert (b + c)[..|a|] == b[..|a|];
  }

  /** Every condition opens with WHERE. */
  lemma ConditionStartsWithWhere(long: real, lat: real, radius: int, cells: seq<CellId>,
                                 filters: map<string, string>, order: seq<string>, isOwner: bool, isConstruct: bool)
    requires Visits(order, filters)
    ensures Where <= Condition(long, lat, radius, cells, filters, order, isOwner, isConstruct)
  {
    var rest := FilterTerms(filters, order) + ConstructorTerm(isOwner, isConstruct);
    var head := ConditionHead(long, lat, radius, cells);
    if IsSpatial(long, lat, radius) {
      PrefixOfConcat(Where, CellListOpen + Join(CellTexts(cells), ",") + CellListClose);
    }
    PrefixTransitive(Where, head, rest);
  }

  /** A radius search opens with the cell-id list: decimal ids separated by commas. */
  lemma SpatialConditionPrefix(long: real, lat: real, radius: int, cells: seq<CellId>,
                               filters: map<string, string>, order: seq<string>, isOwner: bool, isConstruct: bool)
    requires Visits(order, filters)
    requires IsSpatial(long, lat, radius)
    ensures Where + (CellListOpen + Join(CellTexts(cells), ",") + CellListClose)
            <= Condition(long, lat, radius, cells, filters, order, isOwner, isConstruct)
  {
    PrefixOfConcat(CellClause(cells), FilterTerms(filters, order) + ConstructorTerm(isOwner, isConstruct));
  }

  /** Without a radius search no cell clause is written: the filter terms follow WHERE directly. */
  lemma PlainConditionShape(long: real, lat: real, radius: int, cells: seq<CellId>,
                            filters: map<string, string>, order: seq<string>, isOwner: bool, isConstruct: bool)
    requires Visits(order, filters)
    requires !IsSpatial(long, lat, radius)
    ensures Condition(long, lat, radius, cells, filters, order, isOwner, isConstruct)
            == Where + FilterTerms(filters, order) + ConstructorTerm(isOwner, isConstruct)
  {
  }

  /** Every caller filter contributes its term "key+value AND " to the condition. */
  lemma ConditionHasEveryFilter(long: real, lat: real, radius: int, cells: seq<CellId>,
                                filters: map<string, string>, order: seq<string>,
                                isOwner: bool, isConstruct: bool, k: string)
    requires Enumerates(order, filters)
    requires k in filters
    ensures Contains(Condition(long, lat, radius, cells, filters, order, isOwner, isConstruct),
                     k + filters[k] + " AND ")
  {
    FilterTermsContain(filters, order, k);
    ContainsWithin(ConditionHead(long, lat, radius, cells), FilterTerms(filters, order),
                   ConstructorTerm(isOwner, isConstruct), FilterTerm(k, filters[k]));
  }

  lemma Assoc(a: string, b: string, c: string)
    ensures a + (b + c) == (a + b) + c
  {
  }

  /** Whatever precedes it, the listing-type test at the end names exactly the requested type. */
  lemma TypeTestSuffix(head: string, visibility: string, isConstruct: bool)
    ensures EndsWith(head + (visibility + TypeTest + FormatBool(isConstruct)), TypeTest + FormatBool(isConstruct))
    ensures EndsWith(head + (visibility + TypeTest + FormatBool(isConstruct)), TypeTest + "true") <==> isConstruct
    ensures EndsWith(head + (visibility + TypeTest + FormatBool(isConstruct)), TypeTest + "false") <==> !isConstruct
  {
    var tail := TypeTest + FormatBool(isConstruct);
    var pre := head + visibility;
    var c := head + (visibility + TypeTest + FormatBool(isConstruct));
    Assoc(visibility, TypeTest, FormatBool(isConstruct));
    Assoc(head, visibility, tail);
    assert c == pre + tail;
    EndsWithConcat(pre, tail);
    var t := TypeTest + "true";
    var f := TypeTest + "false";
    assert |TypeTest| == 18;
    if isConstruct {
      assert c[|c| - 2] == 'u' && f[21] == 's';
      DiffersAt(c, f, 21);
    } else {
      assert c[|c| - 2] == 's' && t[20] == 'u';
      DiffersAt(c, t, 20);
    }
  }

  /** GetFlats: the condition ends with the listing-type test for exactly the requested type. */
  lemma ConditionEndsWithType(long: real, lat: real, radius: int, cells: seq<CellId>,
                              filters: map<string, string>, order: seq<string>,
                              isOwner: bool, isConstruct: bool)
    requires Visits(order, filters)
    ensures var c := Condition(long, lat, radius, cells, filters, order, isOwner, isConstruct);
      && (EndsWith(c, TypeTest + "true") <==> isConstruct)
      && (EndsWith(c, TypeTest + "false") <==> !isConstruct)
  {
    TypeTestSuffix(ConditionHead(long, lat, radius, cells) + FilterTerms(filters, order), VisibilityTerm(isOwner), isConstruct);
  }

  /** "is_visible = true AND" stands before the listing-type test exactly when the caller is not
      the owner, whatever precedes it, provided that ends with a blank. */
  lemma VisibilityMarked(head: string, isOwner: bool, isConstruct: bool)
    requires head == "" || head[|head| - 1] == ' '
    ensures EndsWith(head + ConstructorTerm(isOwner, isConstruct), VisibleOnly + TypeTest + FormatBool(isConstruct))
            <==> !isOwner
  {
    var tail := TypeTest + FormatBool(isConstruct);
    var marked := VisibleOnly + tail;
    if isOwner {
      var c := head + tail;
      assert head + ConstructorTerm(isOwner, isConstruct) == c;
      assert |VisibleOnly| == 21 && marked[20] == 'D';
      if |marked| <= |c| {
        var k := |c| - |marked| + 20;
        assert k == |head| - 1;
        assert c[k] == head[k];
      }
      DiffersAt(c, marked, 20);
    } else {
      assert head + ConstructorTerm(isOwner, isConstruct) == head + marked;
      EndsWithConcat(head, marked);
    }
  }

  /** GetFlats: the visibility restriction appears exactly when the caller is not the owner. */
  lemma ConditionVisibility(long: real, lat: real, radius: int, cells: seq<CellId>,
                            filters: map<string, string>, order: seq<string>,
                            isOwner: bool, isConstruct: bool)
    requires Visits(order, filters)
    ensures EndsWith(Condition(long, lat, radius, cells, filters, order, isOwner, isConstruct),
                     VisibleOnly + TypeTest + FormatBool(isConstruct))
            <==> !isOwner
  {
    FilterTermsEndWithBlank(filters, order);
    var head := ConditionHead(long, lat, radius, cells) + FilterTerms(filters, order);
    VisibilityMarked(head, isOwner, isConstruct);
  }

  /** GetFlatAd: the same rule for the single-row query, which also names the requested type. */
  lemma FlatAdConditionVisibility(isOwner: bool, isConstructor: bool)
    ensures EndsWith(FlatAdCondition(isOwner, isConstructor),
                     VisibleOnly + TypeTest + FormatBool(isConstructor))
            <==> !isOwner
    ensures EndsWith(FlatAdCondition(isOwner, isConstructor), TypeTest + FormatBool(isConstructor))
  {
    assert FlatAdHead[|FlatAdHead| - 1] == ' ';
    VisibilityMarked(FlatAdHead, isOwner, isConstructor);
    TypeTestSuffix(FlatAdHead, VisibilityTerm(isOwner), isConstructor);
  }
}
