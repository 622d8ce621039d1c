/** The positional placeholder list $1, $2, ..., $n of GetFlatAd's living-places query
    (lotrepository.go, lines 218-222). */
module Placeholders {
  import opened Text

  function Placeholder(i: nat): string {
    "$" + Itoa(i)
  }

  /** The placeholders $1 .. $n, in order. */
  function PlaceholderList(n: nat): (r: seq<string>)
    ensures |r| == n
  {
    seq(n, i requires 0 <= i < n => Placeholder(i + 1))
  }

  const PlacesColumns: string := "SELECT id, roomid, residentid, "
  const PlacesMoreColumns: string := "price, description, "
  const PlacesLastColumns: string := "numofberths, deposit "
  const PlacesFrom: string := "FROM living_places "
  const PlacesWhere: string := "WHERE roomid IN ("
  const LivingPlacesSelect: string :=
    PlacesColumns + PlacesMoreColumns + PlacesLastColumns + PlacesFrom + PlacesWhere

  lemma FirstPlaceholder()
    ensures Join(PlaceholderList(1), ", ") == "$1"
  {
    assert Itoa(1) == "1";
  }

  lemma NextPlaceholder(i: nat)
    requires i >= 2
    ensures Join(PlaceholderList(i), ", ") == Join(PlaceholderList(i - 1), ", ") + (", $" + Itoa(i))
  {
    assert PlaceholderList(i)[..i - 1] == PlaceholderList(i - 1);
    assert ", $" + Itoa(i) == ", " + Placeholder(i);
  }

  /** The living-places query for n room ids as lines 218-222 write it: the list opens with $1
      whatever n is. */
  function LivingPlacesText(n: nat): string {
    LivingPlacesSelect + Join(PlaceholderList(if n == 0 then 1 else n), ", ") + ")"
  }

  /** PostgreSQL's check of a statement against the arguments bound to it (line 225): every
      parameter the text names must be bound, and lib/pq refuses more arguments than parameters.
      The text of this query holds no '$' but its parameter markers. */
  predicate ArgumentsMatch(query: string, arguments: nat) {
    Occurrences('$', query) == arguments
  }

  /** Lines 218-222 as written: "$1", then ", $i" appended for i = 2 .. n. */
  method LivingPlacesQuery(n: nat) returns (query: string)
    ensures query == LivingPlacesText(n)
  {
    var placeholders := "$1";
    FirstPlaceholder();
    var i := 2;
    while i <= n
      invariant 2 <= i <= (if n < 2 then 2 else n + 1)
      invariant placeholders == Join(PlaceholderList(i - 1), ", ")
    {
      NextPlaceholder(i);
      placeholders := placeholders + (", $" + Itoa(i));
      i := i + 1;
    }
    query := LivingPlacesSelect + placeholders + ")";
  }

  /** A placeholder holds exactly one '$'. */
  lemma OnePerPlaceholder(i: nat)
    ensures Occurrences('$', Placeholder(i)) == 1
  {
    OccurrencesAbsent('$', Itoa(i));
    OccurrencesAppend('$', "$", Itoa(i));
    assert Occurrences('$', "$") == 1 by {
      assert ""  == "$"[..0];
    }
  }

  /** Joining $1, ..., $n with ", " writes exactly n dollar signs. */
  lemma {:induction false} JoinedDollars(n: nat)
    ensures Occurrences('$', Join(PlaceholderList(n), ", ")) == n
  {
    if n == 1 {
      OnePerPlaceholder(1);
    } else if n > 1 {
      JoinedDollars(n - 1);
      var parts := PlaceholderList(n);
      var init := Join(PlaceholderList(n - 1), ", ");
      assert parts[..n - 1] == PlaceholderList(n - 1);
      assert parts[n - 1] == Placeholder(n);
      assert Join(parts, ", ") == init + ", " + Placeholder(n);
      OccurrencesAppend('$', init, ", ");
      OccurrencesAppend('$', init + ", ", Placeholder(n));
      OccurrencesAbsent('$', ", ");
      OnePerPlaceholder(n);
    }
  }

  /** The list $1, ..., $n names exactly n parameters, the i-th being $i. */
  lemma PlaceholderCount(n: nat)
    ensures Occurrences('$', Join(PlaceholderList(n), ", ")) == n
    ensures forall i :: 0 <= i < n ==> PlaceholderList(n)[i] == "$" + Itoa(i + 1)
  {
    JoinedDollars(n);
  }

  /** The list as written names exactly one parameter per bound room id if and only if there is
      at least one room id: with none it still names $1. */
  lemma AsWrittenMatchesArguments(n: nat)
    ensures Occurrences('$', Join(PlaceholderList(if n == 0 then 1 else n), ", ")) == n <==> n > 0
  {
    PlaceholderCount(if n == 0 then 1 else n);
  }

  /** The column list of the query names no parameter. */
  lemma ColumnsNameNoParameter()
    ensures Occurrences('$', PlacesColumns + PlacesMoreColumns + PlacesLastColumns) == 0
  {
    assert Occurrences('$', PlacesColumns) == 0 by { NoOccurrences('$', PlacesColumns); }
    assert Occurrences('$', PlacesMoreColumns) == 0 by { NoOccurrences('$', PlacesMoreColumns); }
    assert Occurrences('$', PlacesLastColumns) == 0 by { NoOccurrences('$', PlacesLastColumns); }
    OccurrencesAppend('$', PlacesColumns, PlacesMoreColumns);
    OccurrencesAppend('$', PlacesColumns + PlacesMoreColumns, PlacesLastColumns);
  }

  /** The fixed part of the query names no parameter. */
  lemma SelectNamesNoParameter()
    ensures Occurrences('$', LivingPlacesSelect) == 0
  {
    var columns := PlacesColumns + PlacesMoreColumns + PlacesLastColumns;
    ColumnsNameNoParameter();
    assert Occurrences('$', PlacesFrom) == 0 by { NoOccurrences('$', PlacesFrom); }
    assert Occurrences('$', PlacesWhere) == 0 by { NoOccurrences('$', PlacesWhere); }
    OccurrencesAppend('$', columns, PlacesFrom);
    OccurrencesAppend('$', columns + PlacesFrom, PlacesWhere);
  }

  /** The query as written binds its arguments exactly when at least one room id is passed: with
      none, the text still names $1. */
  lemma QueryMatchesArguments(n: nat)
    ensures ArgumentsMatch(LivingPlacesText(n), n) <==> n > 0
  {
    var list := Join(PlaceholderList(if n == 0 then 1 else n), ", ");
    AsWrittenMatchesArguments(n);
    SelectNamesNoParameter();
    NoOccurrences('$', ")");
    OccurrencesAppend('$', LivingPlacesSelect, list);
    OccurrencesAppend('$', LivingPlacesSelect + list, ")");
  }
}
