/**
 * Stat dictionaries as the scorers see them: a map from stat name to a
 * number, where a missing key counts as absent.
 */
module Stats {

  /** One player's (or one defence's) stats for one game or projection. */
  type StatLine = map<string, real>

  /** One linear scoring rule: a stat name and the points per unit. */
  datatype Rate = Rate(key: string, points: real)

  /** `stats.get(key, 0)`. */
  function Get(s: StatLine, key: string): real {
    if key in s then s[key] else 0.0
  }

  /** `stats.get(key, default)`. */
  function GetOr(s: StatLine, key: string, default: real): (r: real)
    ensures key in s ==> r == s[key]
    ensures key !in s ==> r == default
  {
    if key in s then s[key] else default
  }

  /** The contribution of one rule: the stat's count times its rate, or nothing
      when the key is absent. */
  function Term(s: StatLine, rule: Rate): real {
    if rule.key in s then s[rule.key] * rule.points else 0.0
  }

  /** A rule's term is the `get` default-0 reading times the rate. */
  lemma TermGet(s: StatLine, rule: Rate)
    ensures Term(s, rule) == Get(s, rule.key) * rule.points
  {
  }

  /** Sum of the linear rules of a rate table. */
  function LinearPoints(rates: seq<Rate>, s: StatLine): real {
    if |rates| == 0 then 0.0 else Term(s, rates[0]) + LinearPoints(rates[1..], s)
  }

  /** One step of the sum: the rule at `k` plus the rules after it. */
  lemma LinearAt(rates: seq<Rate>, s: StatLine, k: nat)
    requires k < |rates|
    ensures LinearPoints(rates[k..], s) == Term(s, rates[k]) + LinearPoints(rates[k + 1..], s)
  {
  }

  /** The points of two tables read one after the other add up. */
  lemma {:induction false} LinearAppend(a: seq<Rate>, b: seq<Rate>, s: StatLine)
    ensures LinearPoints(a + b, s) == LinearPoints(a, s) + LinearPoints(b, s)
  {
    if |a| > 0 {
      assert (a + b)[1..] == a[1..] + b;
      LinearAppend(a[1..], b, s);
    } else {
      assert a + b == b;
    }
  }

  /** A three-rule table, term by term. */
  lemma Linear3(rs: seq<Rate>, s: StatLine)
    requires |rs| == 3
    ensures LinearPoints(rs, s) == Term(s, rs[0]) + Term(s, rs[1]) + Term(s, rs[2])
  {
    LinearAt(rs, s, 0); LinearAt(rs, s, 1); LinearAt(rs, s, 2);
    assert rs[0..] == rs;
    assert rs[3..] == [];
  }

  /** A four-rule table, term by term. */
  lemma Linear4(rs: seq<Rate>, s: StatLine)
    requires |rs| == 4
    ensures LinearPoints(rs, s) == Term(s, rs[0]) + Term(s, rs[1]) + Term(s, rs[2]) + Term(s, rs[3])
  {
    LinearAt(rs, s, 0); LinearAt(rs, s, 1); LinearAt(rs, s, 2); LinearAt(rs, s, 3);
    assert rs[0..] == rs;
    assert rs[4..] == [];
  }

  /** Every count multiplied by `c`. */
  function Scale(s: StatLine, c: real): (r: StatLine)
    ensures r.Keys == s.Keys
    ensures forall k :: k in r ==> r[k] == s[k] * c
  {
    map k | k in s :: s[k] * c
  }

  /** Only the keys in `keys` kept. */
  function Restrict(s: StatLine, keys: set<string>): (r: StatLine)
    ensures r.Keys == s.Keys * keys
    ensures forall k :: k in r ==> r[k] == s[k]
  {
    map k | k in s && k in keys :: s[k]
  }

  /** The stat names a rate table reads. */
  function Keys(rates: seq<Rate>): (ks: set<string>)
    ensures forall i :: 0 <= i < |rates| ==> rates[i].key in ks
  {
    set i | 0 <= i < |rates| :: rates[i].key
  }

  /** The linear part of a score is homogeneous: scaling every count by `c`
      scales the linear points by `c` (doubling all counts doubles them). */
  lemma {:induction false} LinearScale(rates: seq<Rate>, s: StatLine, c: real)
    ensures LinearPoints(rates, Scale(s, c)) == c * LinearPoints(rates, s)
  {
    if |rates| > 0 {
      LinearScale(rates[1..], s, c);
      var t0, rest := Term(s, rates[0]), LinearPoints(rates[1..], s);
      assert Term(Scale(s, c), rates[0]) == c * t0 by {
        if rates[0].key in s {
          assert Scale(s, c)[rates[0].key] == s[rates[0].key] * c;
        }
      }
      assert c * (t0 + rest) == c * t0 + c * rest;
    }
  }

  /** Keys outside the rate table are ignored: two stat lines that agree on the
      table's keys score the same linear points. */
  lemma {:induction false} LinearIgnoresOtherKeys(rates: seq<Rate>, s: StatLine, t: StatLine)
    requires forall k :: k in Keys(rates) ==> (k in s <==> k in t)
    requires forall k :: k in Keys(rates) && k in s ==> s[k] == t[k]
    ensures LinearPoints(rates, s) == LinearPoints(rates, t)
  {
    if |rates| > 0 {
      assert Keys(rates[1..]) <= Keys(rates) by {
        forall k | k in Keys(rates[1..]) ensures k in Keys(rates) {
          var i :| 0 <= i < |rates[1..]| && rates[1..][i].key == k;
          assert rates[i + 1].key == k;
        }
      }
      assert rates[0].key in Keys(rates);
      LinearIgnoresOtherKeys(rates[1..], s, t);
    }
  }

  /** Restricting a line to the table's keys leaves its linear points unchanged. */
  lemma LinearRestrict(rates: seq<Rate>, s: StatLine)
    ensures LinearPoints(rates, Restrict(s, Keys(rates))) == LinearPoints(rates, s)
  {
    LinearIgnoresOtherKeys(rates, Restrict(s, Keys(rates)), s);
  }

  /** With no stats at all, the linear points are zero. */
  lemma {:induction false} LinearEmpty(rates: seq<Rate>)
    ensures LinearPoints(rates, map[]) == 0.0
  {
    if |rates| > 0 {
      LinearEmpty(rates[1..]);
    }
  }
}
