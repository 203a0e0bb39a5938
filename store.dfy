/**
 * The abstract store behind `executeQuery`: every table is a finite map from
 * its primary key `id` to a record, and every SQL statement the components
 * issue is one of the operations below.
 *
 * Two rules of the wrapper in src/db/database.ts are built in:
 *  - a statement that fails (a duplicate primary key, say) is caught inside
 *    `executeQuery`, logged, and acts as a no-op returning no rows;
 *  - a `LIKE '%q%'` search is plain substring containment (SQLite's case
 *    folding and the `%`/`_` wildcards are not modelled).
 */
module Store {

  datatype Option<+T> = None | Some(value: T)

  // ---------------------------------------------------------------------------
  // Substring search, as used by every `LIKE '%query%'` filter
  // ---------------------------------------------------------------------------

  /** `q` occurs somewhere inside `s`. */
  predicate Contains(s: string, q: string)
    ensures q <= s ==> Contains(s, q)
    ensures Contains(s, q) ==> |q| <= |s|
    decreases |s|
  {
    q <= s || (|s| > 0 && Contains(s[1..], q))
  }

  /** The search box rule: an empty query filters nothing, otherwise the field must contain it. */
  predicate Matches(query: string, field: string)
    ensures query == "" ==> Matches(query, field)
    ensures Matches(query, field) ==> |query| <= |field|
  {
    query == "" || Contains(field, query)
  }

  /** A copy of `q` starts at position `i` of `s`. */
  predicate OccursAt(s: string, q: string, i: nat) {
    i + |q| <= |s| && s[i..i + |q|] == q
  }

  /** A witness position makes `Contains` true. */
  lemma {:induction false} ContainsAt(s: string, q: string, i: nat)
    requires OccursAt(s, q, i)
    ensures Contains(s, q)
    decreases i
  {
    if i == 0 {
      assert q <= s;
    } else {
      assert s[1..][i - 1..i - 1 + |q|] == s[i..i + |q|];
      ContainsAt(s[1..], q, i - 1);
    }
  }

  /** `Contains` holds exactly when some position of `s` starts a copy of `q`. */
  lemma {:induction false} ContainsIffWitness(s: string, q: string)
    ensures Contains(s, q) <==> exists i: nat :: OccursAt(s, q, i)
    decreases |s|
  {
    if Contains(s, q) {
      if q <= s {
        assert OccursAt(s, q, 0);
      } else {
        ContainsIffWitness(s[1..], q);
        var j: nat :| OccursAt(s[1..], q, j);
        assert s[1..][j..j + |q|] == s[j + 1..j + 1 + |q|];
        assert OccursAt(s, q, j + 1);
      }
    }
    if exists i: nat :: OccursAt(s, q, i) {
      var i: nat :| OccursAt(s, q, i);
      ContainsAt(s, q, i);
    }
  }

  /**
   * The `if (searchQuery)` guard in front of every LIKE is redundant:
   * `LIKE '%%'` already matches every row, so both query shapes list the same rows.
   */
  lemma EmptySearchMatchesAll(field: string)
    ensures Matches("", field) && Contains(field, "")
  {
    assert "" <= field;
  }

  // ---------------------------------------------------------------------------
  // Generated ids: a prefix followed by the decimal value of Date.now()
  // ---------------------------------------------------------------------------

  function Digit(d: nat): (c: char)
    requires d < 10
    ensures '0' <= c <= '9'
  {
    (48 + d) as char
  }

  /** The decimal rendering of a timestamp, as JavaScript's template literal prints it. */
  function Decimal(n: nat): (r: string)
    ensures |r| >= 1
    ensures forall i :: 0 <= i < |r| ==> '0' <= r[i] <= '9'
    ensures n >= 10 ==> |r| >= 2
  {
    if n < 10 then [Digit(n)] else Decimal(n / 10) + [Digit(n % 10)]
  }

  /** Different timestamps render differently, so ids minted at different milliseconds differ. */
  lemma {:induction false} DecimalInjective(a: nat, b: nat)
    requires Decimal(a) == Decimal(b)
    ensures a == b
    decreases a
  {
    if a < 10 && b < 10 {
    } else if a < 10 || b < 10 {
      assert false;
    } else {
      var da, db := Decimal(a / 10), Decimal(b / 10);
      assert Decimal(a) == da + [Digit(a % 10)];
      assert Decimal(b) == db + [Digit(b % 10)];
      assert da == Decimal(a)[..|Decimal(a)| - 1];
      assert db == Decimal(b)[..|Decimal(b)| - 1];
      DecimalInjective(a / 10, b / 10);
      assert Digit(a % 10) == Decimal(a)[|Decimal(a)| - 1];
    }
  }

  /** The id `prefix + Date.now()` used by every insert handler. */
  function MintId(prefix: string, now: nat): (id: string)
    ensures prefix <= id
  {
    prefix + Decimal(now)
  }

  /** Ids with the same prefix collide exactly when they were minted in the same millisecond. */
  lemma MintIdInjective(prefix: string, a: nat, b: nat)
    ensures MintId(prefix, a) == MintId(prefix, b) <==> a == b
  {
    if MintId(prefix, a) == MintId(prefix, b) {
      assert Decimal(a) == MintId(prefix, a)[|prefix|..];
      assert Decimal(b) == MintId(prefix, b)[|prefix|..];
      DecimalInjective(a, b);
    }
  }

  // ---------------------------------------------------------------------------
  // Editing lists by index: `list.filter((_, i) => i !== index)`
  // ---------------------------------------------------------------------------

  /** Drops the element at `index`; an index outside the list drops nothing. */
  function RemoveAt<T>(s: seq<T>, index: int): (r: seq<T>)
    ensures 0 <= index < |s| ==> |r| == |s| - 1
    ensures 0 <= index < |s| ==> forall j :: 0 <= j < index ==> r[j] == s[j]
    ensures 0 <= index < |s| ==> forall j :: index <= j < |r| ==> r[j] == s[j + 1]
    ensures !(0 <= index < |s|) ==> r == s
  {
    if 0 <= index < |s| then s[..index] + s[index + 1..] else s
  }

  // ---------------------------------------------------------------------------
  // Row-level statements on a table keyed by id
  // ---------------------------------------------------------------------------

  /**
   * `INSERT INTO t (id, ...) VALUES (...)`: a fresh id adds exactly one row;
   * an id already present violates the primary key, the statement fails,
   * and the failure is swallowed, leaving the table as it was.
   */
  function Insert<R>(t: map<string, R>, id: string, row: R): (t': map<string, R>)
    ensures id in t ==> t' == t
    ensures id !in t ==> t'.Keys == t.Keys + {id} && t'[id] == row && |t'| == |t| + 1
    ensures forall k :: k in t ==> k in t' && t'[k] == t[k]
  {
    if id in t then t else t[id := row]
  }

  /** `UPDATE t SET ... WHERE id = ?`: rewrites the one matching row, or nothing when no row matches. */
  function UpdateRow<R>(t: map<string, R>, id: string, f: R -> R): (t': map<string, R>)
    ensures t'.Keys == t.Keys
    ensures id in t ==> t'[id] == f(t[id])
    ensures forall k :: k in t && k != id ==> t'[k] == t[k]
  {
    if id in t then t[id := f(t[id])] else t
  }

  /** `DELETE FROM t WHERE id = ?`: removes exactly the row with that id. */
  function DeleteRow<R>(t: map<string, R>, id: string): (t': map<string, R>)
    ensures t'.Keys == t.Keys - {id}
    ensures forall k :: k in t' ==> t'[k] == t[k]
  {
    t - {id}
  }

  /** Deleting a row just inserted under a fresh id gives back the table. */
  lemma DeleteUndoesInsert<R>(t: map<string, R>, id: string, row: R)
    requires id !in t
    ensures DeleteRow(Insert(t, id, row), id) == t
  {
    assert DeleteRow(Insert(t, id, row), id).Keys == t.Keys;
  }

  // ---------------------------------------------------------------------------
  // SELECT ... WHERE ... ORDER BY key DESC
  // ---------------------------------------------------------------------------

  /** No id occurs twice. */
  predicate Distinct(ids: seq<string>) {
    forall i, j :: 0 <= i < j < |ids| ==> ids[i] != ids[j]
  }

  lemma DistinctTail(s: seq<string>)
    requires Distinct(s) && |s| > 0
    ensures Distinct(s[1..]) && s[0] !in s[1..]
  {
    forall j | 0 <= j < |s[1..]| ensures s[1..][j] != s[0] {
      assert s[1..][j] == s[j + 1];
    }
  }

  lemma DistinctCons(x: string, s: seq<string>)
    requires Distinct(s) && x !in s
    ensures Distinct([x] + s)
  {
    var r := [x] + s;
    forall i, j | 0 <= i < j < |r| ensures r[i] != r[j] {
      assert r[j] == s[j - 1];
      if i > 0 { assert r[i] == s[i - 1]; }
    }
  }

  /** `ids` lists every row of `t` satisfying `where`, each exactly once, and nothing else. */
  predicate ListsExactly<R>(t: map<string, R>, where: R -> bool, ids: seq<string>) {
    && (forall i :: 0 <= i < |ids| ==> ids[i] in t && where(t[ids[i]]))
    && (forall k :: k in t && where(t[k]) ==> k in ids)
    && Distinct(ids)
  }

  /** The rows named by `ids` are in non-increasing order of `key`. */
  predicate SortedDesc<R>(t: map<string, R>, key: R -> int, ids: seq<string>)
    requires forall i :: 0 <= i < |ids| ==> ids[i] in t
  {
    forall i, j :: 0 <= i < j < |ids| ==> key(t[ids[i]]) >= key(t[ids[j]])
  }

  /** Puts `k` before the first row whose key is not larger than its own. */
  function InsertDesc<R>(t: map<string, R>, key: R -> int, ids: seq<string>, k: string): (r: seq<string>)
    requires k in t && forall i :: 0 <= i < |ids| ==> ids[i] in t
    requires SortedDesc(t, key, ids)
    ensures |r| == |ids| + 1
    ensures forall x :: x in r <==> x in ids || x == k
    ensures Distinct(ids) && k !in ids ==> Distinct(r)
    ensures forall i :: 0 <= i < |r| ==> r[i] in t
    ensures SortedDesc(t, key, r)
  {
    if ids == [] || key(t[k]) >= key(t[ids[0]]) then
      [k] + ids
    else
      var rest := InsertDesc(t, key, ids[1..], k);
      assert forall i :: 0 <= i < |rest| ==> key(t[rest[i]]) <= key(t[ids[0]]) by {
        forall i | 0 <= i < |rest| ensures key(t[rest[i]]) <= key(t[ids[0]]) {
          assert rest[i] in rest;
          if rest[i] != k {
            var j :| 0 <= j < |ids[1..]| && ids[1..][j] == rest[i];
            assert ids[j + 1] == rest[i];
          }
        }
      }
      assert Distinct(ids) && k !in ids ==> Distinct([ids[0]] + rest) by {
        if Distinct(ids) && k !in ids {
          DistinctTail(ids);
          DistinctCons(ids[0], rest);
        }
      }
      [ids[0]] + rest
  }

  /** The rows named by `ids`, in that order. */
  function RowsOf<R>(t: map<string, R>, ids: seq<string>): (rows: seq<R>)
    requires forall i :: 0 <= i < |ids| ==> ids[i] in t
    ensures |rows| == |ids|
    ensures forall i :: 0 <= i < |ids| ==> rows[i] == t[ids[i]]
  {
    if ids == [] then [] else [t[ids[0]]] + RowsOf(t, ids[1..])
  }

  /**
   * `rows` is what `SELECT * FROM t WHERE where ORDER BY key DESC` returns:
   * one row per matching id, no other row, by `key` descending.
   */
  ghost predicate Listing<R>(t: map<string, R>, where: R -> bool, key: R -> int, rows: seq<R>) {
    exists ids :: IsListing(t, where, key, ids, rows)
  }

  predicate IsListing<R(==)>(t: map<string, R>, where: R -> bool, key: R -> int, ids: seq<string>, rows: seq<R>) {
    && ListsExactly(t, where, ids)
    && SortedDesc(t, key, ids)
    && |rows| == |ids|
    && (forall i :: 0 <= i < |ids| ==> rows[i] == t[ids[i]])
  }

  /** What a listing promises about its rows themselves. */
  lemma ListingRows<R>(t: map<string, R>, where: R -> bool, key: R -> int, rows: seq<R>)
    requires Listing(t, where, key, rows)
    ensures forall i :: 0 <= i < |rows| ==> where(rows[i]) && rows[i] in t.Values
    ensures forall k :: k in t && where(t[k]) ==> t[k] in rows
    ensures forall i, j :: 0 <= i < j < |rows| ==> key(rows[i]) >= key(rows[j])
  {
    var ids :| IsListing(t, where, key, ids, rows);
    forall k | k in t && where(t[k]) ensures t[k] in rows {
      var i :| 0 <= i < |ids| && ids[i] == k;
      assert rows[i] == t[k];
    }
  }

  /** Two WHERE clauses that accept the same rows produce the same listings. */
  lemma ListingSameFilter<R>(t: map<string, R>, w1: R -> bool, w2: R -> bool, key: R -> int, rows: seq<R>)
    requires forall r :: w1(r) == w2(r)
    requires Listing(t, w1, key, rows)
    ensures Listing(t, w2, key, rows)
  {
    var ids :| IsListing(t, w1, key, ids, rows);
    assert IsListing(t, w2, key, ids, rows);
  }

  /** The ids of a list, as a set. */
  function IdSet(ids: seq<string>): (s: set<string>)
    ensures forall x :: x in s <==> x in ids
  {
    if ids == [] then {} else {ids[0]} + IdSet(ids[1..])
  }

  /** A list without repeats has as many elements as its set. */
  lemma {:induction false} DistinctCard(ids: seq<string>)
    requires Distinct(ids)
    ensures |IdSet(ids)| == |ids|
  {
    if ids != [] {
      DistinctTail(ids);
      DistinctCard(ids[1..]);
    }
  }

  /** Ids listing every row of a table exactly once are as many as the rows. */
  lemma ListsAllCount<R>(t: map<string, R>, where: R -> bool, ids: seq<string>)
    requires forall r :: where(r)
    requires ListsExactly(t, where, ids)
    ensures |ids| == |t|
  {
    forall k | k in t.Keys ensures k in IdSet(ids) {
      assert where(t[k]);
    }
    assert IdSet(ids) == t.Keys;
    DistinctCard(ids);
  }

  /** A SELECT without a WHERE clause returns exactly one row per row of the table. */
  lemma ListingAllCount<R>(t: map<string, R>, where: R -> bool, key: R -> int, rows: seq<R>)
    requires forall r :: where(r)
    requires Listing(t, where, key, rows)
    ensures |rows| == |t|
  {
    var ids :| IsListing(t, where, key, ids, rows);
    ListsAllCount(t, where, ids);
  }

  /**
   * One SELECT over a table: the rows satisfying `where`, each once, ordered
   * by `key` descending (rows with equal keys come in no promised order).
   */
  method Select<R(==)>(t: map<string, R>, where: R -> bool, key: R -> int) returns (ids: seq<string>, rows: seq<R>)
    ensures IsListing(t, where, key, ids, rows)
    ensures Listing(t, where, key, rows)
  {
    var rest := t.Keys;
    ids := [];
    while rest != {}
      invariant rest <= t.Keys
      invariant forall x :: x in ids ==> x in t && x !in rest && where(t[x])
      invariant forall k :: k in t && k !in rest && where(t[k]) ==> k in ids
      invariant Distinct(ids)
      invariant SortedDesc(t, key, ids)
      decreases rest
    {
      var k :| k in rest;
      rest := rest - {k};
      if where(t[k]) {
        ids := InsertDesc(t, key, ids, k);
      }
    }
    rows := RowsOf(t, ids);
    assert IsListing(t, where, key, ids, rows);
  }

  // ---------------------------------------------------------------------------
  // What a component renders once a handler has failed
  // ---------------------------------------------------------------------------

  /** A component either shows its error message and nothing else, or its normal content. */
  datatype View = ErrorOnly(message: string) | Content

  /** The `if (error) return <div>{error}</div>` guard at the top of every render. */
  function ViewOf(error: Option<string>): (v: View)
    ensures v.ErrorOnly? <==> error.Some?
    ensures v.ErrorOnly? ==> v.message == error.value
  {
    if error.Some? then ErrorOnly(error.value) else Content
  }
}
