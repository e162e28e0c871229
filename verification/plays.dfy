/**
 * Play-by-play rows, as the analyzers read them, and counting over them.
 * Nullable columns are `Option`s; yard columns are whole yards.
 */
module Plays {
  import opened Wrappers

  /** One play-by-play row, reduced to the columns the core reads. */
  datatype Play = Play(
    week: int,
    touchdown: bool,
    tdPlayer: Option<string>,
    yardsGained: int,
    playType: string,
    fieldGoalAttempt: bool,
    kicker: Option<string>,
    fgResult: string,
    kickDistance: int,
    kickoffAttempt: bool,
    puntAttempt: bool,
    returnYards: Option<real>,
    posteam: Option<string>,
    defteam: Option<string>,
    gameId: string,
    homeTeam: string,
    awayTeam: string)

  /** The elements of `s` satisfying `f`, in order (a DataFrame row filter). */
  function Filter<T>(s: seq<T>, f: T -> bool): (r: seq<T>)
    ensures |r| <= |s|
    ensures forall i :: 0 <= i < |r| ==> r[i] in s && f(r[i])
    ensures forall i :: 0 <= i < |s| && f(s[i]) ==> s[i] in r
  {
    if |s| == 0 then []
    else if f(s[0]) then [s[0]] + Filter(s[1..], f)
    else Filter(s[1..], f)
  }

  /** Filtering a sequence without repeats gives one without repeats. */
  lemma {:induction false} FilterDistinct<T>(s: seq<T>, f: T -> bool)
    requires forall i, j :: 0 <= i < j < |s| ==> s[i] != s[j]
    ensures forall i, j :: 0 <= i < j < |Filter(s, f)| ==> Filter(s, f)[i] != Filter(s, f)[j]
  {
    if |s| > 0 {
      var tail := s[1..];
      assert forall i, j :: 0 <= i < j < |tail| ==> tail[i] != tail[j] by {
        forall i, j | 0 <= i < j < |tail| ensures tail[i] != tail[j] {
          assert tail[i] == s[i + 1] && tail[j] == s[j + 1];
        }
      }
      FilterDistinct(tail, f);
      if f(s[0]) {
        var rest := Filter(tail, f);
        var r := [s[0]] + rest;
        assert Filter(s, f) == r;
        forall i, j | 0 <= i < j < |r| ensures r[i] != r[j] {
          assert r[j] == rest[j - 1];
          if i > 0 {
            assert r[i] == rest[i - 1];
          } else {
            assert rest[j - 1] in tail;
            var m :| 0 <= m < |tail| && tail[m] == rest[j - 1];
            assert s[m + 1] == r[j];
            assert r[i] == s[0];
          }
        }
      }
    }
  }

  /** Number of elements satisfying `f` (`len(df[mask])`, `sum(mask)`). */
  function Count<T>(s: seq<T>, f: T -> bool): nat {
    |Filter(s, f)|
  }

  /** Filtering distributes over concatenation. */
  lemma {:induction false} FilterAppend<T>(a: seq<T>, b: seq<T>, f: T -> bool)
    ensures Filter(a + b, f) == Filter(a, f) + Filter(b, f)
  {
    if |a| > 0 {
      assert (a + b)[1..] == a[1..] + b;
      FilterAppend(a[1..], b, f);
    } else {
      assert a + b == b;
    }
  }

  /** Splitting by a second condition splits the count into two parts. */
  lemma {:induction false} CountSplit<T>(s: seq<T>, f: T -> bool, g: T -> bool)
    ensures Count(s, f) == Count(s, x => f(x) && g(x)) + Count(s, x => f(x) && !g(x))
  {
    if |s| > 0 {
      CountSplit(s[1..], f, g);
    }
  }

  /** A count under a stronger condition is no larger. */
  lemma {:induction false} CountMono<T>(s: seq<T>, f: T -> bool, g: T -> bool)
    requires forall x :: f(x) ==> g(x)
    ensures Count(s, f) <= Count(s, g)
  {
    if |s| > 0 {
      CountMono(s[1..], f, g);
    }
  }

  /** Counts under pointwise-equivalent conditions are equal. */
  lemma {:induction false} CountSame<T>(s: seq<T>, f: T -> bool, g: T -> bool)
    requires forall x :: f(x) <==> g(x)
    ensures Count(s, f) == Count(s, g)
  {
    if |s| > 0 {
      CountSame(s[1..], f, g);
    }
  }

  /** The first occurrence of every element, in order (a dictionary's keys in
      insertion order, or a `groupby` over distinct keys). */
  function Distinct<T(==)>(s: seq<T>): (d: seq<T>)
    ensures forall i :: 0 <= i < |s| ==> s[i] in d
    ensures forall k :: 0 <= k < |d| ==> d[k] in s
    ensures forall i, j :: 0 <= i < j < |d| ==> d[i] != d[j]
  {
    if |s| == 0 then []
    else
      var front := s[..|s| - 1];
      var d := Distinct(front);
      assert forall i :: 0 <= i < |front| ==> s[i] == front[i];
      if s[|s| - 1] in d then d else d + [s[|s| - 1]]
  }
}
