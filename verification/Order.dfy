/** Strict orders and the sorts of Go's sort package. */
module Order {

  ghost predicate StrictOrder<T(!new)>(less: (T, T) -> bool) {
    && (forall a :: !less(a, a))
    && (forall a, b, c :: less(a, b) && less(b, c) ==> less(a, c))
  }

  ghost predicate StrictTotal<T(!new)>(less: (T, T) -> bool) {
    StrictOrder(less) && forall a, b :: a == b || less(a, b) || less(b, a)
  }

  /** The order tells any two elements of the sequence apart. */
  predicate Separates<T>(less: (T, T) -> bool, s: seq<T>) {
    forall i, j :: 0 <= i < j < |s| ==> less(s[i], s[j]) || less(s[j], s[i])
  }

  predicate Ascending<T>(less: (T, T) -> bool, s: seq<T>) {
    forall i, j :: 0 <= i < j < |s| ==> less(s[i], s[j])
  }

  function Members<T>(s: seq<T>): set<T> {
    set x | x in s
  }

  function Insert<T(==)>(less: (T, T) -> bool, x: T, s: seq<T>): (r: seq<T>)
    ensures Members(r) == Members(s) + {x}
    ensures multiset(r) == multiset(s) + multiset{x}
  {
    if s == [] || !less(s[0], x) then
      InsertFirst(x, s);
      [x] + s
    else
      var rest := Insert(less, x, s[1..]);
      InsertFirst(s[0], s[1..]);
      InsertFirst(s[0], rest);
      assert s == [s[0]] + s[1..];
      [s[0]] + rest
  }

  lemma InsertFirst<T>(x: T, s: seq<T>)
    ensures Members([x] + s) == {x} + Members(s)
    ensures multiset([x] + s) == multiset{x} + multiset(s)
  {
    assert forall y :: y in [x] + s <==> y == x || y in s;
  }

  /** sort.SliceStable; and sort.Slice on a slice whose elements the order tells apart. */
  function Sort<T(==)>(less: (T, T) -> bool, s: seq<T>): (r: seq<T>)
    ensures Members(r) == Members(s)
    ensures multiset(r) == multiset(s)
  {
    if s == [] then [] else
      InsertFirst(s[0], s[1..]);
      assert s == [s[0]] + s[1..];
      Insert(less, s[0], Sort(less, s[1..]))
  }

  lemma {:induction false} InsertAscending<T(!new)>(less: (T, T) -> bool, x: T, s: seq<T>)
    requires StrictOrder(less) && Ascending(less, s) && forall y <- s :: less(x, y) || less(y, x)
    ensures Ascending(less, Insert(less, x, s))
  {
    if s != [] && less(s[0], x) {
      InsertAscending(less, x, s[1..]);
      var rest := Insert(less, x, s[1..]);
      assert s[0] in s;
      forall j | 0 <= j < |rest| ensures less(s[0], rest[j]) {
        assert rest[j] in Members(rest);
        assert rest[j] in s[1..] || rest[j] == x;
      }
    }
  }

  lemma {:induction false} SortAscending<T(!new)>(less: (T, T) -> bool, s: seq<T>)
    requires StrictOrder(less) && Separates(less, s)
    ensures Ascending(less, Sort(less, s))
  {
    if s != [] {
      SortAscending(less, s[1..]);
      forall y <- Sort(less, s[1..]) ensures less(s[0], y) || less(y, s[0]) {
        assert y in Members(Sort(less, s[1..]));
        assert y in s[1..];
      }
      InsertAscending(less, s[0], Sort(less, s[1..]));
    }
  }

  lemma EmptyMembers<T>(s: seq<T>)
    ensures s == [] <==> Members(s) == {}
  {
    assert s != [] ==> s[0] in Members(s);
  }

  /** Only one ascending sequence has a given set of elements. */
  lemma {:induction false} AscendingIsUnique<T(!new)>(less: (T, T) -> bool, a: seq<T>, b: seq<T>)
    requires StrictOrder(less) && Ascending(less, a) && Ascending(less, b) && Members(a) == Members(b)
    ensures a == b
  {
    if a == [] {
      EmptyMembers(b);
    } else {
      assert a[0] in Members(b);
      assert b != [] && b[0] in Members(a);
      assert a[0] == b[0];
      assert Members(a[1..]) == Members(a) - {a[0]} by {
        InsertFirst(a[0], a[1..]);
        assert a == [a[0]] + a[1..];
        assert a[0] !in a[1..];
      }
      assert Members(b[1..]) == Members(b) - {b[0]} by {
        InsertFirst(b[0], b[1..]);
        assert b == [b[0]] + b[1..];
        assert b[0] !in b[1..];
      }
      AscendingIsUnique(less, a[1..], b[1..]);
    }
  }

  // ---------- Strings ----------

  /** The order of Go's `<` on strings. */
  predicate LexLess(a: string, b: string) {
    if a == "" || b == "" then a == "" && b != ""
    else a[0] < b[0] || (a[0] == b[0] && LexLess(a[1..], b[1..]))
  }

  /** The text that ends first or has the smaller character at the first difference. */
  ghost predicate Precedes(a: string, b: string, k: nat) {
    && k <= |a| && k < |b| && a[..k] == b[..k]
    && (k == |a| || a[k] < b[k])
  }

  lemma PrecedesLater(a: string, b: string, k: nat)
    requires a != "" && b != "" && a[0] == b[0]
    ensures Precedes(a, b, k + 1) <==> Precedes(a[1..], b[1..], k)
  {
    if k + 1 <= |a| && k + 1 <= |b| {
      assert a[..k + 1] == [a[0]] + a[1..][..k] && b[..k + 1] == [b[0]] + b[1..][..k];
      assert a[1..][..k] == a[..k + 1][1..] && b[1..][..k] == b[..k + 1][1..];
    }
  }

  lemma {:induction false} LexExactly(a: string, b: string)
    ensures LexLess(a, b) <==> exists k: nat :: Precedes(a, b, k)
  {
    if a == "" || b == "" {
      if a == "" && b != "" {
        assert Precedes(a, b, 0);
      }
    } else {
      LexExactly(a[1..], b[1..]);
      if a[0] < b[0] {
        assert Precedes(a, b, 0);
      } else if a[0] == b[0] {
        assert !Precedes(a, b, 0);
        if k: nat :| Precedes(a, b, k) {
          PrecedesLater(a, b, k - 1);
        }
        if k: nat :| Precedes(a[1..], b[1..], k) {
          PrecedesLater(a, b, k);
        }
      } else if k: nat :| Precedes(a, b, k) {
        assert k > 0 ==> a[..k][0] == b[..k][0];
      }
    }
  }

  lemma {:induction false} LexTransitive(a: string, b: string, c: string)
    requires LexLess(a, b) && LexLess(b, c)
    ensures LexLess(a, c)
  {
    if a != "" && a[0] == b[0] && b[0] == c[0] {
      LexTransitive(a[1..], b[1..], c[1..]);
    }
  }

  lemma {:induction false} LexTotal(a: string, b: string)
    ensures !LexLess(a, a)
    ensures a == b || LexLess(a, b) || LexLess(b, a)
  {
    if a != "" {
      LexTotal(a[1..], if b == "" then b else b[1..]);
      if b != "" && a[0] == b[0] && a[1..] == b[1..] {
        assert a == [a[0]] + a[1..];
      }
    }
  }

  lemma LexStrictTotal()
    ensures StrictTotal(LexLess)
  {
    forall a, b, c | LexLess(a, b) && LexLess(b, c) ensures LexLess(a, c) {
      LexTransitive(a, b, c);
    }
    forall a: string, b: string ensures !LexLess(a, a) && (a == b || LexLess(a, b) || LexLess(b, a)) {
      LexTotal(a, b);
    }
  }
}
