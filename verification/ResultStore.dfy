/** pkg/db/store.go: an ordered table of results, looked up by the parameters
    stored with them. */
module ResultStore {
  import opened Objects

  type Query = map<string, string>

  // Rows keep their creation time when their results are overwritten.
  datatype Row = Row(params: Query, createdAt: int, results: string)

  // The where-clauses: every queried key has the queried value. Other keys of
  // the row do not matter.
  predicate Matches(p: Query, row: Row) {
    Within(p, row.params)
  }

  predicate Within(p: Query, q: Query) {
    forall k | k in p :: k in q && q[k] == p[k]
  }

  // Index of the first matching row in primary-key order, or |rows|.
  function First(rows: seq<Row>, p: Query): (i: nat)
    ensures i <= |rows|
  {
    if rows == [] then 0
    else if Matches(p, rows[0]) then 0
    else 1 + First(rows[1..], p)
  }

  function Lookup(rows: seq<Row>, p: Query): Option<Row> {
    if First(rows, p) < |rows| then Some(rows[First(rows, p)]) else None
  }

  function Stored(rows: seq<Row>, p: Query, v: string, now: int): seq<Row> {
    var i := First(rows, p);
    if i < |rows| then rows[i := rows[i].(results := v)]
    else rows + [Row(p, now, v)]
  }

  datatype StoreReply = UpdatedData | StoredData

  class CalculationResultsStore {
    var rows: seq<Row>

    constructor ()
      ensures rows == []
    {
      rows := [];
    }

    // The query is built one where-clause per parameter, then the first row
    // that passes all of them is read.
    method GetData(parameters: Query) returns (index: nat, row: Option<Row>)
      ensures index == First(rows, parameters)
      ensures row == Lookup(rows, parameters)
      ensures row.Some? ==> index < |rows| && row.value == rows[index] &&
                            forall k | k in parameters :: k in rows[index].params && rows[index].params[k] == parameters[k]
      ensures row.None? ==> index == |rows|
      ensures index <= |rows| && forall i | 0 <= i < index ::
                exists k | k in parameters :: k !in rows[i].params || rows[i].params[k] != parameters[k]
    {
      FirstIsFirst(rows, parameters);
      var clauses: seq<(string, string)> := [];
      var rest := parameters.Keys;
      while rest != {}
        invariant rest <= parameters.Keys
        invariant forall c | c in clauses :: c.0 in parameters && parameters[c.0] == c.1
        invariant forall k | k in parameters && k !in rest :: (k, parameters[k]) in clauses
      {
        var key :| key in rest;
        clauses := clauses + [(key, parameters[key])];
        rest := rest - {key};
      }
      index := 0;
      while index < |rows|
        invariant index <= |rows|
        invariant First(rows, parameters) == index + First(rows[index..], parameters)
      {
        var pass := Passes(rows[index], clauses);
        assert pass == Matches(parameters, rows[index]);
        if pass {
          return index, Some(rows[index]);
        }
        assert rows[index..][1..] == rows[index + 1..];
        index := index + 1;
      }
      row := None;
    }

    static method Passes(row: Row, clauses: seq<(string, string)>) returns (r: bool)
      ensures r <==> forall c | c in clauses :: c.0 in row.params && row.params[c.0] == c.1
    {
      for i := 0 to |clauses|
        invariant forall j | 0 <= j < i :: clauses[j].0 in row.params && row.params[clauses[j].0] == clauses[j].1
      {
        if clauses[i].0 !in row.params || row.params[clauses[i].0] != clauses[i].1 {
          return false;
        }
      }
      return true;
    }

    // `found` is whether the query can be made, `saved` whether the row can be
    // written; None is the error that is returned otherwise.
    method StoreOrUpdateData(parameters: Query, results: string, now: int, found: bool, saved: bool)
      returns (reply: Option<StoreReply>)
      modifies this
      ensures rows == if found && saved then Stored(old(rows), parameters, results, now) else old(rows)
      ensures reply == if !found || !saved then None
                       else Some(if Lookup(old(rows), parameters).Some? then UpdatedData else StoredData)
    {
      if !found {
        return None;
      }
      var index, existing := GetData(parameters);
      if !saved {
        return None;
      }
      if existing.Some? {
        rows := rows[index := existing.value.(results := results)];
        reply := Some(UpdatedData);
      } else {
        rows := rows + [Row(parameters, now, results)];
        reply := Some(StoredData);
      }
    }
  }

  lemma {:induction false} FirstIsFirst(rows: seq<Row>, p: Query)
    ensures First(rows, p) < |rows| ==> Matches(p, rows[First(rows, p)])
    ensures forall i | 0 <= i < First(rows, p) :: !Matches(p, rows[i])
  {
    if rows != [] && !Matches(p, rows[0]) {
      FirstIsFirst(rows[1..], p);
      forall i | 0 <= i < First(rows, p)
        ensures !Matches(p, rows[i])
      {
        if i > 0 {
          assert rows[i] == rows[1..][i - 1];
        }
      }
    }
  }

  lemma {:induction false} FirstUnique(rows: seq<Row>, p: Query, i: nat)
    requires i <= |rows| && (i < |rows| ==> Matches(p, rows[i]))
    requires forall j | 0 <= j < i :: !Matches(p, rows[j])
    ensures First(rows, p) == i
  {
    if i > 0 {
      assert !Matches(p, rows[0]);
      FirstUnique(rows[1..], p, i - 1);
    }
  }

  // A store moves no row and changes no row's parameters or creation time.
  lemma StoredRows(rows: seq<Row>, p: Query, v: string, now: int)
    ensures var rows' := Stored(rows, p, v, now);
            && |rows| <= |rows'|
            && forall i | 0 <= i < |rows| ::
                 rows'[i].params == rows[i].params && rows'[i].createdAt == rows[i].createdAt &&
                 (i != First(rows, p) ==> rows'[i] == rows[i])
  {
  }

  /** After a store under p, p reads back what was stored; and any other query
      reads the same value exactly when it resolves to the same row, and is
      otherwise untouched. For arbitrary, overlapping key sets. */
  lemma StoreThenLookup(rows: seq<Row>, p: Query, v: string, now: int, q: Query)
    ensures var rows' := Stored(rows, p, v, now);
            && First(rows', p) == First(rows, p) < |rows'|
            && rows'[First(rows, p)].results == v
            && (First(rows', q) == First(rows', p) ==> Lookup(rows', q) == Lookup(rows', p))
            && (First(rows', q) != First(rows', p) ==> Lookup(rows', q) == Lookup(rows, q))
  {
    var rows' := Stored(rows, p, v, now);
    FirstIsFirst(rows, p);
    FirstIsFirst(rows, q);
    StoredRows(rows, p, v, now);
    FirstUnique(rows', p, First(rows, p));
    if First(rows, q) < |rows| {
      FirstUnique(rows', q, First(rows, q));
    } else if |rows'| > |rows| && Matches(q, rows'[|rows|]) {
      FirstUnique(rows', q, |rows|);
    } else {
      FirstUnique(rows', q, |rows'|);
    }
  }

  // A sequence of stores: parameters, results and time of each.
  function StoredAll(rows: seq<Row>, ops: seq<(Query, string, int)>): seq<Row>
    decreases |ops|
  {
    if ops == [] then rows
    else StoredAll(Stored(rows, ops[0].0, ops[0].1, ops[0].2), ops[1..])
  }

  /** Once some row matches q, the row that q resolves to, and its creation
      time, are the same after any further stores; so a result that is old
      enough for a bulk stays old enough. */
  lemma {:induction false} FirstMatchIsStable(rows: seq<Row>, ops: seq<(Query, string, int)>, q: Query)
    requires First(rows, q) < |rows|
    ensures var rows' := StoredAll(rows, ops);
            && First(rows', q) == First(rows, q) < |rows'|
            && rows'[First(rows, q)].params == rows[First(rows, q)].params
            && rows'[First(rows, q)].createdAt == rows[First(rows, q)].createdAt
    decreases |ops|
  {
    if ops != [] {
      var rows1 := Stored(rows, ops[0].0, ops[0].1, ops[0].2);
      FirstIsFirst(rows, q);
      StoredRows(rows, ops[0].0, ops[0].1, ops[0].2);
      FirstUnique(rows1, q, First(rows, q));
      FirstMatchIsStable(rows1, ops[1..], q);
    }
  }

  // ----- One fixed key set: the table is a map -----

  ghost predicate Keyed(rows: seq<Row>, keys: set<string>) {
    && (forall i | 0 <= i < |rows| :: rows[i].params.Keys == keys)
    && (forall i, j | 0 <= i < j < |rows| :: rows[i].params != rows[j].params)
  }

  // What a map from parameters to results would hold.
  function MapOf(ops: seq<(Query, string, int)>): map<Query, string>
    decreases |ops|
  {
    if ops == [] then map[]
    else MapOf(ops[..|ops| - 1])[ops[|ops| - 1].0 := ops[|ops| - 1].1]
  }

  lemma SameKeysMatch(p: Query, row: Row)
    requires p.Keys == row.params.Keys
    ensures Matches(p, row) <==> row.params == p
  {
  }

  lemma StoredKeyed(rows: seq<Row>, keys: set<string>, p: Query, v: string, now: int)
    requires Keyed(rows, keys) && p.Keys == keys
    ensures Keyed(Stored(rows, p, v, now), keys)
  {
    FirstIsFirst(rows, p);
    forall i | 0 <= i < |rows| {
      SameKeysMatch(p, rows[i]);
    }
  }

  lemma {:induction false} StoredAllAppend(rows: seq<Row>, ops: seq<(Query, string, int)>, op: (Query, string, int))
    ensures StoredAll(rows, ops + [op]) == Stored(StoredAll(rows, ops), op.0, op.1, op.2)
    decreases |ops|
  {
    if ops == [] {
      assert [op][1..] == [];
    } else {
      StoredAllAppend(Stored(rows, ops[0].0, ops[0].1, ops[0].2), ops[1..], op);
      assert (ops + [op])[1..] == ops[1..] + [op];
    }
  }

  /** With one key set, any sequence of stores leaves at most one row per
      parameter map, and the table answers every query over those keys as a
      finite map updated by the same stores would. */
  lemma {:induction false} TableRefinesMap(ops: seq<(Query, string, int)>, keys: set<string>, q: Query)
    requires forall i | 0 <= i < |ops| :: ops[i].0.Keys == keys
    requires q.Keys == keys
    ensures Keyed(StoredAll([], ops), keys)
    ensures Lookup(StoredAll([], ops), q).Some? <==> q in MapOf(ops)
    ensures q in MapOf(ops) ==> Lookup(StoredAll([], ops), q).value.results == MapOf(ops)[q]
    decreases |ops|
  {
    if ops != [] {
      var before := ops[..|ops| - 1];
      var op := ops[|ops| - 1];
      TableRefinesMap(before, keys, q);
      assert ops == before + [op];
      StoredAllAppend([], before, op);
      var rows := StoredAll([], before);
      StoredKeyed(rows, keys, op.0, op.1, op.2);
      StoreThenLookup(rows, op.0, op.1, op.2, q);
      SameRowSameParams(StoredAll([], ops), keys, op.0, q);
    }
  }

  lemma SameRowSameParams(rows: seq<Row>, keys: set<string>, p: Query, q: Query)
    requires Keyed(rows, keys) && p.Keys == keys && q.Keys == keys
    requires First(rows, p) < |rows|
    ensures First(rows, q) == First(rows, p) <==> p == q
  {
    FirstIsFirst(rows, p);
    FirstIsFirst(rows, q);
    SameKeysMatch(p, rows[First(rows, p)]);
    SameKeysMatch(q, rows[First(rows, p)]);
  }

  // ----- Any key sets: exactly when the table is a map -----

  // Store i is the first of its parameter map, and no larger one was stored before.
  predicate InOrderAt(ps: seq<Query>, i: nat)
    requires i < |ps|
  {
    ps[i] !in ps[..i] ==> forall j | 0 <= j < i :: !Within(ps[i], ps[j])
  }

  // No parameter map is first stored after a proper superset of it was stored.
  predicate InOrder(ps: seq<Query>) {
    forall i | 0 <= i < |ps| :: InOrderAt(ps, i)
  }

  function Puts(ps: seq<Query>, vs: seq<string>, ts: seq<int>): seq<(Query, string, int)>
    requires |vs| == |ps| == |ts|
  {
    seq(|ps|, i requires 0 <= i < |ps| => (ps[i], vs[i], ts[i]))
  }

  // Every parameter map that was stored reads as its last value.
  ghost predicate AnswersNow(ops: seq<(Query, string, int)>) {
    forall q | q in MapOf(ops) ::
      Lookup(StoredAll([], ops), q).Some? && Lookup(StoredAll([], ops), q).value.results == MapOf(ops)[q]
  }

  ghost predicate AnswersAsMap(ops: seq<(Query, string, int)>) {
    forall n | 0 <= n <= |ops| :: AnswersNow(ops[..n])
  }

  // No row could answer for a row before it.
  predicate Layered(rows: seq<Row>) {
    forall i, j | 0 <= i < j < |rows| :: !Within(rows[j].params, rows[i].params)
  }

  predicate HasRow(rows: seq<Row>, q: Query, v: string) {
    exists i :: 0 <= i < |rows| && rows[i].params == q && rows[i].results == v
  }

  // One row of its own for every parameter map, with the last value.
  ghost predicate HoldsMap(rows: seq<Row>, m: map<Query, string>) {
    && Layered(rows)
    && (forall q | q in m :: HasRow(rows, q, m[q]))
    && (forall i | 0 <= i < |rows| :: rows[i].params in m)
  }

  lemma WithinTransitive(p: Query, q: Query, r: Query)
    requires Within(p, q) && Within(q, r)
    ensures Within(p, r)
  {
  }

  lemma OwnRow(rows: seq<Row>, i: nat)
    requires Layered(rows) && i < |rows|
    ensures First(rows, rows[i].params) == i
  {
    FirstUnique(rows, rows[i].params, i);
  }

  // Where a store goes: to the row of its own parameter map, or to a new row.
  lemma StoredInOwnRow(rows: seq<Row>, m: map<Query, string>, p: Query)
    requires HoldsMap(rows, m)
    requires p !in m ==> forall q | q in m :: !Within(p, q)
    ensures p in m ==> First(rows, p) < |rows| && rows[First(rows, p)].params == p
    ensures p !in m ==> First(rows, p) == |rows|
  {
    if p in m {
      assert HasRow(rows, p, m[p]);
      var i :| 0 <= i < |rows| && rows[i].params == p;
      OwnRow(rows, i);
    } else {
      FirstUnique(rows, p, |rows|);
    }
  }

  lemma StillHasRow(rows: seq<Row>, q: Query, u: string, p: Query, v: string, now: int)
    requires HasRow(rows, q, u) && q != p && (First(rows, p) < |rows| ==> rows[First(rows, p)].params == p)
    ensures HasRow(Stored(rows, p, v, now), q, u)
  {
    var i :| 0 <= i < |rows| && rows[i].params == q && rows[i].results == u;
    assert Stored(rows, p, v, now)[i] == rows[i];
  }

  lemma StoredHoldsMap(rows: seq<Row>, m: map<Query, string>, p: Query, v: string, now: int)
    requires HoldsMap(rows, m)
    requires p !in m ==> forall q | q in m :: !Within(p, q)
    ensures HoldsMap(Stored(rows, p, v, now), m[p := v])
  {
    var rows', m' := Stored(rows, p, v, now), m[p := v];
    StoredInOwnRow(rows, m, p);
    assert rows'[First(rows, p)].params == p;
    forall q | q in m'
      ensures HasRow(rows', q, m'[q])
    {
      if q != p {
        StillHasRow(rows, q, m[q], p, v, now);
      }
    }
  }

  lemma {:induction false} MapOfKeys(ops: seq<(Query, string, int)>, q: Query)
    ensures q in MapOf(ops) <==> exists i :: 0 <= i < |ops| && ops[i].0 == q
    decreases |ops|
  {
    if ops != [] {
      MapOfKeys(ops[..|ops| - 1], q);
    }
  }

  lemma {:induction false} InOrderHoldsMap(ps: seq<Query>, vs: seq<string>, ts: seq<int>, n: nat)
    requires |vs| == |ps| == |ts| && InOrder(ps) && n <= |ps|
    ensures HoldsMap(StoredAll([], Puts(ps, vs, ts)[..n]), MapOf(Puts(ps, vs, ts)[..n]))
  {
    if n > 0 {
      var before, op := Puts(ps, vs, ts)[..n - 1], Puts(ps, vs, ts)[n - 1];
      InOrderHoldsMap(ps, vs, ts, n - 1);
      assert Puts(ps, vs, ts)[..n] == before + [op];
      assert (before + [op])[..n - 1] == before;
      StoredAllAppend([], before, op);
      assert InOrderAt(ps, n - 1);
      if op.0 !in MapOf(before) {
        MapOfKeys(before, op.0);
        assert forall i | 0 <= i < n - 1 :: before[i].0 == ps[i];
        forall q | q in MapOf(before)
          ensures !Within(op.0, q)
        {
          MapOfKeys(before, q);
        }
      }
      StoredHoldsMap(StoredAll([], before), MapOf(before), op.0, op.1, op.2);
    }
  }

  lemma HoldsMapAnswers(ops: seq<(Query, string, int)>)
    requires HoldsMap(StoredAll([], ops), MapOf(ops))
    ensures AnswersNow(ops)
  {
    var rows := StoredAll([], ops);
    forall q | q in MapOf(ops)
      ensures Lookup(rows, q).Some? && Lookup(rows, q).value.results == MapOf(ops)[q]
    {
      assert HasRow(rows, q, MapOf(ops)[q]);
      var i :| 0 <= i < |rows| && rows[i].params == q && rows[i].results == MapOf(ops)[q];
      OwnRow(rows, i);
    }
  }

  // Rows hold parameters and values that were stored, and each parameter map
  // that was stored finds a row.
  ghost predicate Filled(rows: seq<Row>, ops: seq<(Query, string, int)>) {
    && (forall i | 0 <= i < |rows| :: exists j :: 0 <= j < |ops| && ops[j].0 == rows[i].params)
    && (forall i | 0 <= i < |rows| :: exists j :: 0 <= j < |ops| && ops[j].1 == rows[i].results)
    && (forall j | 0 <= j < |ops| :: First(rows, ops[j].0) < |rows|)
  }

  lemma {:induction false} AlwaysFilled(ops: seq<(Query, string, int)>)
    ensures Filled(StoredAll([], ops), ops)
    decreases |ops|
  {
    if ops != [] {
      var before, op := ops[..|ops| - 1], ops[|ops| - 1];
      AlwaysFilled(before);
      assert ops == before + [op];
      StoredAllAppend([], before, op);
      var rows := StoredAll([], before);
      StillFilled(rows, before, op);
    }
  }

  lemma StillFilled(rows: seq<Row>, before: seq<(Query, string, int)>, op: (Query, string, int))
    requires Filled(rows, before)
    ensures Filled(Stored(rows, op.0, op.1, op.2), before + [op])
  {
    var ops, rows' := before + [op], Stored(rows, op.0, op.1, op.2);
    StoredRows(rows, op.0, op.1, op.2);
    forall i | 0 <= i < |rows'|
      ensures exists j :: 0 <= j < |ops| && ops[j].0 == rows'[i].params
      ensures exists j :: 0 <= j < |ops| && ops[j].1 == rows'[i].results
    {
      assert ops[|before|] == op;
      if i < |rows| {
        var j :| 0 <= j < |before| && before[j].0 == rows[i].params;
        assert ops[j].0 == rows'[i].params;
        var k :| 0 <= k < |before| && before[k].1 == rows[i].results;
        assert ops[k].1 == rows[i].results;
      }
    }
    forall j | 0 <= j < |ops|
      ensures First(rows', ops[j].0) < |rows'|
    {
      StoreThenLookup(rows, op.0, op.1, op.2, ops[j].0);
    }
  }

  lemma {:induction false} OldValue(ops: seq<(Query, string, int)>, q: Query, v: string)
    requires q in MapOf(ops) && forall i | 0 <= i < |ops| :: ops[i].1 == v
    ensures MapOf(ops)[q] == v
    decreases |ops|
  {
    if q != ops[|ops| - 1].0 {
      OldValue(ops[..|ops| - 1], q, v);
    }
  }

  // After a first store following a superset's, another parameter map answers for p.
  lemma SupersetRow(before: seq<(Query, string, int)>, p: Query, j: nat) returns (q: Query, k: nat)
    requires forall i | 0 <= i < |before| :: before[i].0 != p
    requires j < |before| && Within(p, before[j].0)
    ensures var rows := StoredAll([], before);
            First(rows, p) < |rows| && rows[First(rows, p)].params == q
    ensures q != p && k < |before| && before[k].0 == q
  {
    var rows := StoredAll([], before);
    AlwaysFilled(before);
    FirstIsFirst(rows, before[j].0);
    WithinTransitive(p, before[j].0, rows[First(rows, before[j].0)].params);
    FirstIsFirst(rows, p);
    q := rows[First(rows, p)].params;
    k :| 0 <= k < |before| && before[k].0 == q;
  }

  lemma LateSubsetSpoils(before: seq<(Query, string, int)>, p: Query, j: nat, now: int)
    requires (forall i | 0 <= i < |before| :: before[i].1 == "old" && before[i].0 != p)
    requires j < |before| && Within(p, before[j].0)
    ensures !AnswersNow(before + [(p, "new", now)])
  {
    var op := (p, "new", now);
    var rows := StoredAll([], before);
    var q, k := SupersetRow(before, p, j);
    SameRowAsSubset(rows, p, q);
    StoredAllAppend([], before, op);
    StoreThenLookup(rows, p, "new", now, q);
    FirstUnique(Stored(rows, p, "new", now), q, First(rows, p));
    OldAnswer(before, op, q, k);
  }

  lemma OldAnswer(before: seq<(Query, string, int)>, op: (Query, string, int), q: Query, k: nat)
    requires forall i | 0 <= i < |before| :: before[i].1 == "old"
    requires k < |before| && before[k].0 == q != op.0
    ensures q in MapOf(before + [op]) && MapOf(before + [op])[q] == "old"
  {
    MapOfKeys(before, q);
    OldValue(before, q, "old");
    assert (before + [op])[..|before|] == before;
  }

  // The row that answers for p answers for its own parameters.
  lemma SameRowAsSubset(rows: seq<Row>, p: Query, q: Query)
    requires First(rows, p) < |rows| && rows[First(rows, p)].params == q
    ensures First(rows, q) == First(rows, p)
    ensures forall v: string, now: int, i | 0 <= i < First(rows, p) :: !Matches(q, Stored(rows, p, v, now)[i])
  {
    FirstIsFirst(rows, p);
    forall i | 0 <= i < First(rows, p)
      ensures !Matches(q, rows[i])
    {
      if Matches(q, rows[i]) {
        WithinTransitive(p, q, rows[i].params);
      }
    }
    FirstUnique(rows, q, First(rows, p));
  }

  lemma OutOfOrderSpoils(ps: seq<Query>, ts: seq<int>, n: nat)
    requires |ts| == |ps| && n < |ps| && !InOrderAt(ps, n)
    ensures exists vs: seq<string> :: |vs| == |ps| && !AnswersAsMap(Puts(ps, vs, ts))
  {
    var vs := seq(|ps|, i => if i < n then "old" else "new");
    var ops := Puts(ps, vs, ts);
    var before := ops[..n];
    var j :| 0 <= j < n && Within(ps[n], ps[j]);
    forall i | 0 <= i < n
      ensures before[i].1 == "old" && before[i].0 == ps[i] && ps[i] != ps[n]
    {
      assert ps[..n][i] == ps[i];
    }
    LateSubsetSpoils(before, ps[n], j, ts[n]);
    assert ops[..n + 1] == before + [(ps[n], "new", ts[n])];
    assert !AnswersNow(ops[..n + 1]);
  }

  /** Exactly when the table is a map. Whatever values are stored, every stored
      parameter map reads as its last value at every point, if and only if no
      parameter map is first stored after a proper superset of it was. */
  lemma TableIsMapExactly(ps: seq<Query>, ts: seq<int>)
    requires |ts| == |ps|
    ensures (forall vs: seq<string> | |vs| == |ps| :: AnswersAsMap(Puts(ps, vs, ts))) <==> InOrder(ps)
  {
    if InOrder(ps) {
      forall vs: seq<string> | |vs| == |ps|
        ensures AnswersAsMap(Puts(ps, vs, ts))
      {
        forall n | 0 <= n <= |ps|
          ensures AnswersNow(Puts(ps, vs, ts)[..n])
        {
          InOrderHoldsMap(ps, vs, ts, n);
          HoldsMapAnswers(Puts(ps, vs, ts)[..n]);
        }
      }
    } else {
      var n :| 0 <= n < |ps| && !InOrderAt(ps, n);
      OutOfOrderSpoils(ps, ts, n);
    }
  }

  /** With different key sets the table is not a map: a store under fewer keys
      overwrites the result stored under more. */
  lemma SubsetStoreOverwrites() returns (rows: seq<Row>, p: Query, q: Query)
    ensures p != q && rows == StoredAll([], [(p, "old", 0), (q, "new", 1)])
    ensures |rows| == 1 && Lookup(rows, p) == Some(Row(p, 0, "new"))
  {
    p := map["teff" := "9000.000000", "log_g" := "4.000000"];
    q := map["teff" := "9000.000000"];
    var one := Stored([], p, "old", 0);
    assert one == [Row(p, 0, "old")];
    assert Matches(q, one[0]);
    rows := Stored(one, q, "new", 1);
    StoredAllAppend([], [], (p, "old", 0));
    StoredAllAppend([], [(p, "old", 0)], (q, "new", 1));
    assert [] + [(p, "old", 0)] == [(p, "old", 0)];
    assert [(p, "old", 0)] + [(q, "new", 1)] == [(p, "old", 0), (q, "new", 1)];
    assert rows == [Row(p, 0, "new")];
    assert q != p by { assert "log_g" in p; }
  }
}
