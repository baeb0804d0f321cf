/** Identifiers, optional values, the error taxonomy and the helpers on row
    sequences that stand for the relational store's SELECT, UPDATE and DELETE
    statements. A table is a sequence of rows in insertion order, so the first
    row a query finds is the one `.get()` returns. */
module Common {

  /** Primary and foreign keys: opaque strings (UUIDs in the system). */
  type Id = string

  datatype Option<T> = None | Some(value: T) {
    function GetOr(default: T): T {
      if Some? then value else default
    }
  }

  /** The error kinds a procedure raises. `Internal` is the store refusing an
      insert whose foreign key names no row (an unhandled database error). */
  datatype ErrorKind = Forbidden | NotFound | Conflict | BadRequest | Internal

  datatype Result<T> = Ok(value: T) | Err(error: ErrorKind)

  /** The columns of the authentication library's user table that the core reads. */
  datatype User = User(id: Id, name: string)

  function UserKey(u: User): Id { u.id }

  function UserIds(users: seq<User>): set<Id> {
    set u | u in users :: u.id
  }

  /** The column value an UPDATE writes: a field left `undefined` in the
      patch keeps its current value. */
  function Patch<T>(p: Option<T>, current: T): T {
    if p.Some? then p.value else current
  }

  /** The same for a nullable column: a patch can set it but never clear it. */
  function PatchNullable<T>(p: Option<T>, current: Option<T>): Option<T> {
    if p.Some? then p else current
  }

  /** A string bound of an input schema: `.max(n)` on an optional field. */
  predicate AtMost(o: Option<string>, n: nat) {
    o.None? || |o.value| <= n
  }

  predicate StartsWith(s: string, prefix: string) {
    |prefix| <= |s| && s[..|prefix|] == prefix
  }

  /** `sub` occurs in `s` as a contiguous block: SQL `LIKE '%sub%'` without
      wildcards or case folding. */
  predicate Contains(s: string, sub: string) {
    StartsWith(s, sub) || (|s| > 0 && Contains(s[1..], sub))
  }

  /** The rows of `s` satisfying `p`, in order: `SELECT ... WHERE p`, and the
      rows a `DELETE ... WHERE !p` leaves. */
  function Filter<T(!new)>(s: seq<T>, p: T -> bool): (r: seq<T>)
    ensures |r| <= |s|
    ensures forall x :: x in r <==> x in s && p(x)
  {
    if s == [] then []
    else (if p(s[0]) then [s[0]] else []) + Filter(s[1..], p)
  }

  /** The first `n` rows: `.limit(n)`. */
  function Take<T(!new)>(s: seq<T>, n: nat): (r: seq<T>)
    ensures |r| == if |s| <= n then |s| else n
    ensures forall x :: x in r ==> x in s
    ensures |s| <= n ==> r == s
  {
    if |s| <= n then s else s[..n]
  }

  /** Index of the first row satisfying `p`, or `|s|` when there is none. */
  function FindIndex<T>(s: seq<T>, p: T -> bool): (i: nat)
    ensures i <= |s|
    ensures i < |s| ==> p(s[i])
    ensures forall k :: 0 <= k < i ==> !p(s[k])
  {
    if s == [] then 0
    else if p(s[0]) then 0
    else 1 + FindIndex(s[1..], p)
  }

  /** The row `.get()` returns for `SELECT ... WHERE p`: the first match. */
  function Find<T(!new)>(s: seq<T>, p: T -> bool): (r: Option<T>)
    ensures r.Some? <==> exists x :: x in s && p(x)
    ensures r.Some? ==> r.value in s && p(r.value)
  {
    var i := FindIndex(s, p);
    if i < |s| then Some(s[i]) else None
  }

  /** `UPDATE ... SET f WHERE p`: every matching row is rewritten in place. */
  function UpdateWhere<T>(s: seq<T>, p: T -> bool, f: T -> T): (r: seq<T>)
    ensures |r| == |s|
    ensures forall i :: 0 <= i < |s| ==> r[i] == if p(s[i]) then f(s[i]) else s[i]
  {
    if s == [] then []
    else [if p(s[0]) then f(s[0]) else s[0]] + UpdateWhere(s[1..], p, f)
  }

  /** No two rows share a key: a primary key or a unique index. */
  ghost predicate UniqueKeys<T, K>(s: seq<T>, key: T -> K) {
    forall i, j :: 0 <= i < j < |s| ==> key(s[i]) != key(s[j])
  }

  /** No two rows satisfying `p` share a key: a uniqueness rule that applies to
      some rows only. */
  ghost predicate UniqueKeysWhere<T, K>(s: seq<T>, p: T -> bool, key: T -> K) {
    forall i, j :: 0 <= i < j < |s| && p(s[i]) && p(s[j]) ==> key(s[i]) != key(s[j])
  }

  lemma {:induction false} FilterUniqueKeys<T(!new), K>(s: seq<T>, p: T -> bool, key: T -> K)
    requires UniqueKeys(s, key)
    ensures UniqueKeys(Filter(s, p), key)
  {
    if s != [] {
      var rest := Filter(s[1..], p);
      assert UniqueKeys(s[1..], key) by {
        forall i, j | 0 <= i < j < |s[1..]| ensures key(s[1..][i]) != key(s[1..][j]) {
          assert s[1..][i] == s[i + 1] && s[1..][j] == s[j + 1];
        }
      }
      FilterUniqueKeys(s[1..], p, key);
      if p(s[0]) {
        var r := [s[0]] + rest;
        forall i, j | 0 <= i < j < |r| ensures key(r[i]) != key(r[j]) {
          if i == 0 {
            assert r[j] in s[1..];
            var k :| 0 <= k < |s[1..]| && s[1..][k] == r[j];
            assert s[k + 1] == r[j];
          } else {
            assert r[i] == rest[i - 1] && r[j] == rest[j - 1];
          }
        }
      }
    }
  }

  lemma {:induction false} FilterUniqueKeysWhere<T(!new), K>(s: seq<T>, q: T -> bool, p: T -> bool, key: T -> K)
    requires UniqueKeysWhere(s, q, key)
    ensures UniqueKeysWhere(Filter(s, p), q, key)
  {
    if s != [] {
      var rest := Filter(s[1..], p);
      assert UniqueKeysWhere(s[1..], q, key) by {
        forall i, j | 0 <= i < j < |s[1..]| && q(s[1..][i]) && q(s[1..][j])
          ensures key(s[1..][i]) != key(s[1..][j])
        {
          assert s[1..][i] == s[i + 1] && s[1..][j] == s[j + 1];
        }
      }
      FilterUniqueKeysWhere(s[1..], q, p, key);
      if p(s[0]) {
        var r := [s[0]] + rest;
        forall i, j | 0 <= i < j < |r| && q(r[i]) && q(r[j]) ensures key(r[i]) != key(r[j]) {
          if i == 0 {
            assert r[j] in s[1..];
            var k :| 0 <= k < |s[1..]| && s[1..][k] == r[j];
            assert s[k + 1] == r[j];
          } else {
            assert r[i] == rest[i - 1] && r[j] == rest[j - 1];
          }
        }
      }
    }
  }

  /** Appending a row whose key is new keeps the keys unique. */
  lemma AppendUniqueKeys<T, K>(s: seq<T>, x: T, key: T -> K)
    requires UniqueKeys(s, key)
    requires forall y :: y in s ==> key(y) != key(x)
    ensures UniqueKeys(s + [x], key)
  {
    var r := s + [x];
    forall i, j | 0 <= i < j < |r| ensures key(r[i]) != key(r[j]) {
      if j == |s| {
        assert r[i] in s;
      } else {
        assert r[i] == s[i] && r[j] == s[j];
      }
    }
  }

  /** Appending rows whose keys are new and distinct keeps the keys unique. */
  lemma AppendAllUniqueKeys<T, K>(s: seq<T>, xs: seq<T>, key: T -> K)
    requires UniqueKeys(s, key) && UniqueKeys(xs, key)
    requires forall y, x :: y in s && x in xs ==> key(y) != key(x)
    ensures UniqueKeys(s + xs, key)
  {
    var r := s + xs;
    forall i, j | 0 <= i < j < |r| ensures key(r[i]) != key(r[j]) {
      if j < |s| {
        assert r[i] == s[i] && r[j] == s[j];
      } else if i < |s| {
        assert r[i] in s && r[j] in xs;
      } else {
        assert r[i] == xs[i - |s|] && r[j] == xs[j - |s|];
      }
    }
  }

  /** An UPDATE that does not touch the key column keeps the keys unique. */
  lemma UpdateUniqueKeys<T, K>(s: seq<T>, p: T -> bool, f: T -> T, key: T -> K)
    requires UniqueKeys(s, key)
    requires forall x :: key(f(x)) == key(x)
    ensures UniqueKeys(UpdateWhere(s, p, f), key)
  {
    var r := UpdateWhere(s, p, f);
    forall i, j | 0 <= i < j < |r| ensures key(r[i]) != key(r[j]) {
      assert key(r[i]) == key(s[i]) && key(r[j]) == key(s[j]);
    }
  }

  /** An UPDATE that keeps the key and never moves a row into the scope of a
      partial uniqueness rule keeps that rule. */
  lemma UpdateUniqueKeysWhere<T, K>(s: seq<T>, p: T -> bool, f: T -> T, q: T -> bool, key: T -> K)
    requires UniqueKeysWhere(s, q, key)
    requires forall x :: q(f(x)) ==> q(x) && key(f(x)) == key(x)
    ensures UniqueKeysWhere(UpdateWhere(s, p, f), q, key)
  {
    var r := UpdateWhere(s, p, f);
    forall i, j | 0 <= i < j < |r| && q(r[i]) && q(r[j]) ensures key(r[i]) != key(r[j]) {
      assert q(s[i]) && key(r[i]) == key(s[i]);
      assert q(s[j]) && key(r[j]) == key(s[j]);
    }
  }

  /** A filter whose test every row passes keeps the table as it was. */
  lemma {:induction false} FilterAll<T(!new)>(s: seq<T>, p: T -> bool)
    requires forall x :: x in s ==> p(x)
    ensures Filter(s, p) == s
  {
    if s != [] {
      assert forall x :: x in s[1..] ==> x in s;
      FilterAll(s[1..], p);
    }
  }

  /** A filter whose test no row passes selects nothing. */
  lemma {:induction false} FilterNone<T(!new)>(s: seq<T>, p: T -> bool)
    requires forall x :: x in s ==> !p(x)
    ensures Filter(s, p) == []
  {
    if s != [] {
      assert forall x :: x in s[1..] ==> x in s;
      FilterNone(s[1..], p);
    }
  }

  lemma {:induction false} FilterAppend<T(!new)>(a: seq<T>, b: seq<T>, p: T -> bool)
    ensures Filter(a + b, p) == Filter(a, p) + Filter(b, p)
  {
    if a == [] {
      assert a + b == b;
    } else {
      assert (a + b)[1..] == a[1..] + b;
      FilterAppend(a[1..], b, p);
    }
  }

  /** An UPDATE whose test no row passes leaves the table as it was. */
  lemma UpdateNone<T>(s: seq<T>, p: T -> bool, f: T -> T)
    requires forall x :: x in s ==> !p(x)
    ensures UpdateWhere(s, p, f) == s
  {
    var r := UpdateWhere(s, p, f);
    forall i | 0 <= i < |s| ensures r[i] == s[i] {
      assert s[i] in s;
    }
  }

  /** The first match in `s + [x]` is the first match in `s` if there is one,
      otherwise `x` when it matches. */
  lemma FindAppend<T(!new)>(s: seq<T>, x: T, p: T -> bool)
    ensures Find(s + [x], p) == if Find(s, p).Some? then Find(s, p) else if p(x) then Some(x) else None
  {
    var r := s + [x];
    var i, j := FindIndex(r, p), FindIndex(s, p);
    if j < |s| {
      assert r[j] == s[j];
      forall k | 0 <= k < j ensures !p(r[k]) { assert r[k] == s[k]; }
      assert i == j;
    } else {
      forall k | 0 <= k < |s| ensures !p(r[k]) { assert r[k] == s[k]; }
      assert i >= |s|;
    }
  }

  /** Filtering by `q` after `p` is filtering by `q` alone when every row
      passing `q` passes `p`. */
  lemma {:induction false} FilterNarrower<T(!new)>(s: seq<T>, p: T -> bool, q: T -> bool)
    requires forall x :: x in s && q(x) ==> p(x)
    ensures Filter(Filter(s, p), q) == Filter(s, q)
  {
    if s != [] {
      assert forall x :: x in s[1..] ==> x in s;
      FilterNarrower(s[1..], p, q);
      if p(s[0]) {
        assert Filter(s, p) == [s[0]] + Filter(s[1..], p);
        assert Filter(s, p)[1..] == Filter(s[1..], p);
      } else {
        assert Filter(s, p) == Filter(s[1..], p);
      }
    }
  }

}
