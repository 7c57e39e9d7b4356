/** The month -> category -> amount tables both backends keep.
    Python keeps them in `defaultdict`s: reading a missing amount gives 0.0, `+=` on a missing
    category creates it, and indexing a missing month or user creates an empty entry. */
module Tables {

  /** Category -> accumulated amount for one month. */
  type Table = map<string, real>
  /** Month ("YYYY-MM") -> that month's table. */
  type Ledger = map<string, Table>
  /** Username -> that user's ledger. */
  type UserLedgers = map<string, Ledger>

  /** The category both engines fall back to when nothing names one. */
  const Misc := "Misc"

  /** `t.get(c, 0.0)`. */
  function Get(t: Table, c: string): real {
    if c in t then t[c] else 0.0
  }

  /** `t[c] += x` on a `defaultdict(float)`. */
  function Add(t: Table, c: string, x: real): Table {
    t[c := Get(t, c) + x]
  }

  /** Adding creates category `c` if need be and changes its amount, and only its amount, by `x`. */
  lemma AddAt(t: Table, c: string, x: real)
    ensures Add(t, c, x).Keys == t.Keys + {c}
    ensures forall c' :: Get(Add(t, c, x), c') == Get(t, c') + (if c' == c then x else 0.0)
  {
  }

  /** `l.get(m, {})`. */
  function MonthOf(l: Ledger, m: string): Table {
    if m in l then l[m] else map[]
  }

  /** `us.get(u, {})`; indexing `us[u]` on the defaultdict stores this value under `u`. */
  function UserOf(us: UserLedgers, u: string): Ledger {
    if u in us then us[u] else map[]
  }

  /** `l[m][c] += x`: adds `x` to exactly one (month, category) entry, creating it if need be. */
  function Record(l: Ledger, m: string, c: string, x: real): Ledger {
    l[m := Add(MonthOf(l, m), c, x)]
  }

  /** Recording creates month `m` if need be, leaves every other month alone, and changes the
      amount of (`m`, `c`), and only that amount, by `x`. */
  lemma RecordAt(l: Ledger, m: string, c: string, x: real)
    ensures Record(l, m, c, x).Keys == l.Keys + {m}
    ensures forall m' :: m' != m ==> MonthOf(Record(l, m, c, x), m') == MonthOf(l, m')
    ensures forall m', c' :: Get(MonthOf(Record(l, m, c, x), m'), c') == Get(MonthOf(l, m'), c') + (if m' == m && c' == c then x else 0.0)
  {
  }

  /** The sum of the amounts of the categories in `keys`. */
  ghost function SumOver(t: Table, keys: set<string>): real
    requires keys <= t.Keys
  {
    if keys == {} then 0.0
    else
      var c :| c in keys;
      t[c] + SumOver(t, keys - {c})
  }

  /** The sum of every amount in a table. */
  ghost function Total(t: Table): real {
    SumOver(t, t.Keys)
  }

  /** The sum does not depend on which category is taken out first. */
  lemma {:induction false} SumOverRemove(t: Table, keys: set<string>, c: string)
    requires keys <= t.Keys && c in keys
    ensures SumOver(t, keys) == t[c] + SumOver(t, keys - {c})
    decreases keys
  {
    var c0 :| c0 in keys && SumOver(t, keys) == t[c0] + SumOver(t, keys - {c0});
    if c0 != c {
      SumOverRemove(t, keys - {c0}, c);
      SumOverRemove(t, keys - {c}, c0);
      assert keys - {c0} - {c} == keys - {c} - {c0};
    }
  }

  /** Two tables that agree on `keys` have the same sum over them. */
  lemma {:induction false} SumOverAgree(t: Table, u: Table, keys: set<string>)
    requires keys <= t.Keys && keys <= u.Keys
    requires forall k :: k in keys ==> t[k] == u[k]
    ensures SumOver(t, keys) == SumOver(u, keys)
    decreases keys
  {
    if keys != {} {
      var c :| c in keys && SumOver(t, keys) == t[c] + SumOver(t, keys - {c});
      SumOverRemove(u, keys, c);
      SumOverAgree(t, u, keys - {c});
    }
  }

  lemma TotalRemove(t: Table, c: string)
    requires c in t
    ensures Total(t) == t[c] + Total(t - {c})
  {
    SumOverRemove(t, t.Keys, c);
    SumOverAgree(t, t - {c}, t.Keys - {c});
  }

  /** Adding `x` to one category adds `x` to the table's sum. */
  lemma TotalAdd(t: Table, c: string, x: real)
    ensures Total(Add(t, c, x)) == Total(t) + x
  {
    var r := Add(t, c, x);
    SumOverRemove(r, r.Keys, c);
    if c in t {
      assert r.Keys == t.Keys;
      SumOverRemove(t, t.Keys, c);
      SumOverAgree(r, t, t.Keys - {c});
    } else {
      assert r.Keys - {c} == t.Keys;
      SumOverAgree(r, t, t.Keys);
    }
  }

  /** Python's `sum(t.values())`. */
  method SumValues(t: Table) returns (s: real)
    ensures s == Total(t)
  {
    s := 0.0;
    var rest := t.Keys;
    while rest != {}
      invariant rest <= t.Keys
      invariant s + SumOver(t, rest) == Total(t)
      decreases rest
    {
      var c :| c in rest;
      SumOverRemove(t, rest, c);
      s := s + t[c];
      rest := rest - {c};
    }
  }
}
