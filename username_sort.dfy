/** `sortBy(users, 'username')` as lodash defines it: ascending by username,
    and stable, so users with equal usernames keep their input order. */
module UsernameSort {
  import opened LiveTypes
  import opened StringOrder
  import opened Subsequences

  /** Every user comes no later, by username, than every user after it. */
  predicate Sorted(s: seq<User>)
  {
    forall i, j :: 0 <= i < j < |s| ==> Le(s[i].username, s[j].username)
  }

  /** The users of `s` whose username is `k`, in their order in `s`. */
  function Named(s: seq<User>, k: string): seq<User>
  {
    if s == [] then []
    else if s[0].username == k then [s[0]] + Named(s[1..], k)
    else Named(s[1..], k)
  }

  /** `r` is a stable ascending sort of `s` by username: sorted, and for every
      username the users carrying it appear in `r` exactly as they do in `s`. */
  ghost predicate StableSortOf(r: seq<User>, s: seq<User>)
  {
    Sorted(r) && forall k :: Named(r, k) == Named(s, k)
  }

  /** Places `x` before the first user of `t` whose username is not smaller. */
  function Insert(x: User, t: seq<User>): (r: seq<User>)
    ensures multiset(r) == multiset(t) + multiset{x}
  {
    if t == [] then [x]
    else if Le(x.username, t[0].username) then [x] + t
    else
      assert t == [t[0]] + t[1..];
      [t[0]] + Insert(x, t[1..])
  }

  /** The stable sort, by insertion from the back. */
  function SortByUsername(s: seq<User>): (r: seq<User>)
    ensures multiset(r) == multiset(s)
  {
    if s == [] then []
    else
      assert s == [s[0]] + s[1..];
      Insert(s[0], SortByUsername(s[1..]))
  }

  lemma SortedCons(x: User, s: seq<User>)
    requires Sorted(s)
    requires forall j :: 0 <= j < |s| ==> Le(x.username, s[j].username)
    ensures Sorted([x] + s)
  {
  }

  lemma {:induction false} InsertSorted(x: User, t: seq<User>)
    requires Sorted(t)
    ensures Sorted(Insert(x, t))
  {
    if t == [] {
    } else if Le(x.username, t[0].username) {
      forall j | 0 <= j < |t|
        ensures Le(x.username, t[j].username)
      {
        if j > 0 {
          LeTransitive(x.username, t[0].username, t[j].username);
        }
      }
      SortedCons(x, t);
    } else {
      LeTotal(x.username, t[0].username);
      var rest := Insert(x, t[1..]);
      InsertSorted(x, t[1..]);
      forall j | 0 <= j < |rest|
        ensures Le(t[0].username, rest[j].username)
      {
        var y := rest[j];
        assert y in multiset(rest);
        if y != x {
          assert y in multiset(t[1..]);
          var i :| 0 <= i < |t[1..]| && t[1..][i] == y;
          assert t[i + 1] == y;
        }
      }
      SortedCons(t[0], rest);
    }
  }

  lemma {:induction false} InsertNamed(x: User, t: seq<User>, k: string)
    ensures Named(Insert(x, t), k) == (if x.username == k then [x] else []) + Named(t, k)
  {
    if t == [] {
      assert [x][1..] == [];
    } else if Le(x.username, t[0].username) {
      assert ([x] + t)[1..] == t;
    } else {
      var rest := Insert(x, t[1..]);
      assert ([t[0]] + rest)[1..] == rest;
      InsertNamed(x, t[1..], k);
      if x.username == k && t[0].username == k {
        LeReflexive(k);
        assert false;
      }
    }
  }

  lemma {:induction false} SortSorted(s: seq<User>)
    ensures Sorted(SortByUsername(s))
  {
    if s != [] {
      SortSorted(s[1..]);
      InsertSorted(s[0], SortByUsername(s[1..]));
    }
  }

  lemma {:induction false} SortKeepsNamedOrder(s: seq<User>, k: string)
    ensures Named(SortByUsername(s), k) == Named(s, k)
  {
    if s != [] {
      SortKeepsNamedOrder(s[1..], k);
      InsertNamed(s[0], SortByUsername(s[1..]), k);
    }
  }

  /** `SortByUsername` is a stable ascending sort by username. */
  lemma SortIsStable(s: seq<User>)
    ensures StableSortOf(SortByUsername(s), s)
  {
    SortSorted(s);
    forall k
      ensures Named(SortByUsername(s), k) == Named(s, k)
    {
      SortKeepsNamedOrder(s, k);
    }
  }

  lemma {:induction false} NamedMember(s: seq<User>, k: string, u: User)
    ensures u in Named(s, k) <==> u in s && u.username == k
  {
    if s != [] {
      NamedMember(s[1..], k, u);
      assert s == [s[0]] + s[1..];
    }
  }

  lemma {:induction false} NamedSubsequence(s: seq<User>, k: string)
    ensures IsSubsequence(Named(s, k), s)
  {
    if s != [] {
      NamedSubsequence(s[1..], k);
      var r := Named(s[1..], k);
      if s[0].username == k {
        assert ([s[0]] + r)[1..] == r;
      } else if r != [] {
        assert IsSubsequence(r, s[1..]);
      }
    }
  }

  /** A stable sort has exactly one result: two sorted sequences that agree on
      the users of every username are equal. */
  lemma {:induction false} StableSortUnique(a: seq<User>, b: seq<User>)
    requires Sorted(a) && Sorted(b)
    requires forall k :: Named(a, k) == Named(b, k)
    ensures a == b
    decreases |a|
  {
    if a == [] {
      if b != [] {
        NamedMember(b, b[0].username, b[0]);
        assert false;
      }
    } else if b == [] {
      NamedMember(a, a[0].username, a[0]);
      assert false;
    } else {
      var m, n := a[0].username, b[0].username;
      NamedMember(b, m, a[0]);
      assert Named(a, m) == [a[0]] + Named(a[1..], m);
      var j :| 0 <= j < |b| && b[j] == a[0];
      if j == 0 { LeReflexive(n); }
      NamedMember(a, n, b[0]);
      assert Named(b, n) == [b[0]] + Named(b[1..], n);
      var i :| 0 <= i < |a| && a[i] == b[0];
      if i == 0 { LeReflexive(m); }
      LeAntisymmetric(m, n);
      assert Named(a, m) == Named(b, m);
      assert a[0] == Named(a, m)[0] == Named(b, m)[0] == b[0];
      forall k
        ensures Named(a[1..], k) == Named(b[1..], k)
      {
        assert Named(a, k) == Named(b, k);
        if k == m {
          assert Named(a, k) == [a[0]] + Named(a[1..], k);
          assert Named(b, k) == [b[0]] + Named(b[1..], k);
          assert Named(a[1..], k) == Named(a, k)[1..];
          assert Named(b[1..], k) == Named(b, k)[1..];
        } else {
          assert Named(a, k) == Named(a[1..], k);
          assert Named(b, k) == Named(b[1..], k);
        }
      }
      StableSortUnique(a[1..], b[1..]);
      assert a == [a[0]] + a[1..];
      assert b == [b[0]] + b[1..];
    }
  }

  /** Whatever algorithm computes it, a stable ascending sort by username of `s`
      is `SortByUsername(s)`. */
  lemma StableSortIsSortByUsername(r: seq<User>, s: seq<User>)
    requires StableSortOf(r, s)
    ensures r == SortByUsername(s)
  {
    SortIsStable(s);
    StableSortUnique(r, SortByUsername(s));
  }
}
