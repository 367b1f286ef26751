/** The list queries the services send to the document store: a match
    object built from constraint kinds, a sort on one field, and the
    `$facet` stage that returns one window of the sorted match set together
    with a counter over the whole match set. */
module Query {
  import opened Common

  /** A field value as the store holds it. Enumerations are stored by name. */
  datatype Value = IdVal(id: Id) | IntVal(n: int) | TextVal(s: string) | BoolVal(b: bool)

  /** The constraint kinds a field of a match object carries. */
  datatype Constraint =
    | Equals(v: Value)              // `field: v`
    | OneOf(vs: seq<Value>)         // `field: { $in: vs }`
    | Between(start: int, end: int) // `field: { $gte: start, $lte: end }`
    | NotEquals(v: Value)           // `field: { $ne: v }`
    | Pattern(text: string)         // `field: { $regex: new RegExp(text, 'i') }`

  /** A match object: at most one constraint per field, and optionally a
      `$or` group of flag fields of which at least one must be `true`. */
  datatype Match<F> = Match(fields: map<F, Constraint>, anyOf: Option<seq<F>>)

  /** The store's case-insensitive regular-expression test
      `(pattern, subject)`; the regex engine itself is not modelled. */
  type Regex = (string, string) -> bool

  /** The optional `{ start, end }` range of an inquiry. */
  datatype Range = Range(start: int, end: int)

  /** A paginated list inquiry: page number, page size, optional sort field
      and direction, and the entity-specific search part. */
  datatype Inquiry<F, S> = Inquiry(page: int, limit: int, sort: Option<F>, direction: Option<Direction>, search: S)

  /** What the `$facet` stage returns: the page, and `metaCounter`, which
      holds one `{ total }` document, or none when nothing matched. */
  datatype Facet<R> = Facet(list: seq<R>, metaCounter: seq<nat>)

  /** Whether a field value (None: the document lacks the field) satisfies
      one constraint. */
  predicate Satisfies(v: Option<Value>, c: Constraint, regex: Regex)
  {
    match c
    case Equals(w) => v == Some(w)
    case OneOf(ws) => v.Some? && v.value in ws
    case Between(lo, hi) => v.Some? && v.value.IntVal? && lo <= v.value.n <= hi
    case NotEquals(w) => v != Some(w)
    case Pattern(t) => v.Some? && v.value.TextVal? && regex(t, v.value.s)
  }

  /** `$match`: every field constraint holds and, when there is a `$or`
      group, one of its flags is `true`. */
  predicate Matches<F(==)>(doc: F -> Option<Value>, m: Match<F>, regex: Regex)
  {
    && (forall f :: f in m.fields ==> Satisfies(doc(f), m.fields[f], regex))
    && (m.anyOf.Some? ==> exists i :: 0 <= i < |m.anyOf.value| && doc(m.anyOf.value[i]) == Some(BoolVal(true)))
  }

  /** The values of a string list, as an `$in` operand. */
  function Texts(l: seq<string>): (r: seq<Value>)
    ensures forall s :: TextVal(s) in r <==> s in l
    ensures forall v :: v in r ==> v.TextVal?
  {
    if l == [] then [] else [TextVal(l[0])] + Texts(l[1..])
  }

  /** The values of an integer list, as an `$in` operand. */
  function Ints(l: seq<int>): (r: seq<Value>)
    ensures forall n :: IntVal(n) in r <==> n in l
    ensures forall v :: v in r ==> v.IntVal?
  {
    if l == [] then [] else [IntVal(l[0])] + Ints(l[1..])
  }

  /** A text search applies only when the text is truthy, i.e. not empty. */
  predicate TextGiven(text: Option<string>)
  {
    text.Some? && text.value != ""
  }

  // ---------------------------------------------------------------------
  // Sorting

  /** The sort key of a field value. Numbers sort by value; a missing or
      non-numeric field sorts below every number. */
  function SortKey(v: Option<Value>): Option<int>
  {
    if v.Some? && v.value.IntVal? then Some(v.value.n) else None
  }

  predicate KeyLe(a: Option<int>, b: Option<int>)
  {
    a.None? || (b.Some? && a.value <= b.value)
  }

  /** `a` may precede `b` in the given direction. */
  predicate InOrder(a: Option<int>, b: Option<int>, dir: Direction)
  {
    if dir == Asc then KeyLe(a, b) else KeyLe(b, a)
  }

  /** `{ [sort ?? default]: direction ?? DESC }`. */
  function SortField<F>(sort: Option<F>, default: F): (r: F)
    ensures sort.Some? ==> r == sort.value
    ensures sort.None? ==> r == default
  {
    if sort.Some? then sort.value else default
  }

  function SortDirection(direction: Option<Direction>): (r: Direction)
    ensures direction.Some? ==> r == direction.value
    ensures direction.None? ==> r == Desc
  {
    if direction.Some? then direction.value else Desc
  }

  ghost predicate SortedBy<R>(s: seq<R>, key: R -> Option<int>, dir: Direction)
  {
    forall i, j :: 0 <= i < j < |s| ==> InOrder(key(s[i]), key(s[j]), dir)
  }

  ghost predicate NoDup<R>(s: seq<R>)
  {
    forall i, j :: 0 <= i < j < |s| ==> s[i] != s[j]
  }

  /** Inserts `x` before the first element it may precede. */
  function Insert<R>(x: R, s: seq<R>, key: R -> Option<int>, dir: Direction): (r: seq<R>)
    ensures multiset(r) == multiset(s) + multiset{x}
  {
    if s == [] then [x]
    else if InOrder(key(x), key(s[0]), dir) then [x] + s
    else
      assert s == [s[0]] + s[1..];
      [s[0]] + Insert(x, s[1..], key, dir)
  }

  /** `$sort` on one key (insertion sort; among equal keys the scan order
      is kept). */
  function SortBy<R>(s: seq<R>, key: R -> Option<int>, dir: Direction): (r: seq<R>)
    ensures multiset(r) == multiset(s)
  {
    if s == [] then []
    else
      assert s == [s[0]] + s[1..];
      Insert(s[0], SortBy(s[1..], key, dir), key, dir)
  }

  lemma {:induction false} InsertSorted<R>(x: R, s: seq<R>, key: R -> Option<int>, dir: Direction)
    requires SortedBy(s, key, dir)
    ensures SortedBy(Insert(x, s, key, dir), key, dir)
  {
    if s != [] && !InOrder(key(x), key(s[0]), dir) {
      var rest := Insert(x, s[1..], key, dir);
      InsertSorted(x, s[1..], key, dir);
      assert forall y :: y in rest ==> InOrder(key(s[0]), key(y), dir) by {
        forall y | y in rest
          ensures InOrder(key(s[0]), key(y), dir)
        {
          assert y in multiset(rest);
          if y != x {
            assert y in multiset(s[1..]);
            var k :| 0 <= k < |s[1..]| && s[1..][k] == y;
            assert s[k + 1] == y;
          }
        }
      }
      var r := [s[0]] + rest;
      forall i, j | 0 <= i < j < |r|
        ensures InOrder(key(r[i]), key(r[j]), dir)
      {
        if i == 0 {
          assert r[j] == rest[j - 1];
        } else {
          assert r[i] == rest[i - 1] && r[j] == rest[j - 1];
        }
      }
    }
  }

  lemma {:induction false} SortBySorted<R>(s: seq<R>, key: R -> Option<int>, dir: Direction)
    ensures SortedBy(SortBy(s, key, dir), key, dir)
  {
    if s != [] {
      SortBySorted(s[1..], key, dir);
      InsertSorted(s[0], SortBy(s[1..], key, dir), key, dir);
    }
  }

  /** A sequence without duplicates keeps none after a permutation. */
  lemma {:induction false} NoDupPermutation<R>(s: seq<R>, t: seq<R>)
    requires NoDup(s) && multiset(s) == multiset(t)
    ensures NoDup(t)
  {
    forall i, j | 0 <= i < j < |t|
      ensures t[i] != t[j]
    {
      if t[i] == t[j] {
        var x := t[i];
        assert multiset(t[..j]) + multiset(t[j..]) == multiset(t) by {
          assert t[..j] + t[j..] == t;
        }
        assert x in multiset(t[..j]) && x in multiset(t[j..]);
        assert multiset(t)[x] >= 2;
        Occurrences(s, x);
      }
    }
  }

  /** In a sequence without duplicates every element occurs at most once. */
  lemma {:induction false} Occurrences<R>(s: seq<R>, x: R)
    requires NoDup(s)
    ensures multiset(s)[x] <= 1
  {
    if s != [] {
      assert s == [s[0]] + s[1..];
      assert NoDup(s[1..]) by {
        forall i, j | 0 <= i < j < |s[1..]| ensures s[1..][i] != s[1..][j] {
          assert s[1..][i] == s[i + 1] && s[1..][j] == s[j + 1];
        }
      }
      Occurrences(s[1..], x);
      if x == s[0] {
        assert x !in s[1..] by {
          forall k | 0 <= k < |s[1..]| ensures s[1..][k] != x {
            assert s[1..][k] == s[k + 1];
          }
        }
      }
    }
  }

  // ---------------------------------------------------------------------
  // Filtering and the page window

  /** `$match` over a scan: the matching documents in scan order. */
  function Filter<R(!new)>(s: seq<R>, keep: R -> bool): (r: seq<R>)
    ensures forall x :: x in r <==> x in s && keep(x)
    ensures multiset(r) <= multiset(s)
  {
    if s == [] then []
    else
      assert s == [s[0]] + s[1..];
      if keep(s[0]) then [s[0]] + Filter(s[1..], keep) else Filter(s[1..], keep)
  }

  /** The number of matching documents of a scan without duplicates is the
      size of the match set. */
  lemma {:induction false} FilterCount<R(!new)>(s: seq<R>, keep: R -> bool)
    requires NoDup(s)
    ensures |Filter(s, keep)| == |set x | x in s && keep(x)|
  {
    if s != [] {
      var tail := s[1..];
      assert NoDup(tail) by {
        forall i, j | 0 <= i < j < |tail| ensures tail[i] != tail[j] {
          assert tail[i] == s[i + 1] && tail[j] == s[j + 1];
        }
      }
      FilterCount(tail, keep);
      var whole := set x | x in s && keep(x);
      var rest := set x | x in tail && keep(x);
      assert s[0] !in tail by {
        forall k | 0 <= k < |tail| ensures tail[k] != s[0] {
          assert tail[k] == s[k + 1];
        }
      }
      if keep(s[0]) {
        assert whole == rest + {s[0]};
      } else {
        assert whole == rest;
      }
    }
  }

  /** Number of documents skipped before page `page`. */
  function Skip(page: int, limit: int): int
  {
    (page - 1) * limit
  }

  /** `$skip: (page - 1) * limit`, then `$limit: limit`. */
  function Window<R>(s: seq<R>, page: int, limit: int): (r: seq<R>)
    requires page >= 1 && limit >= 1
    ensures |r| == PageSize(|s|, page, limit)
    ensures forall i :: 0 <= i < |r| ==> r[i] == s[Skip(page, limit) + i]
  {
    var skip := Skip(page, limit);
    assert skip >= 0 by {
      assert page - 1 >= 0;
    }
    if |s| <= skip then []
    else if |s| - skip < limit then s[skip..]
    else s[skip..skip + limit]
  }

  /** The size of a page: `min(limit, max(0, total - (page - 1) * limit))`. */
  function PageSize(total: nat, page: int, limit: int): int
  {
    if total <= Skip(page, limit) then 0
    else if total - Skip(page, limit) < limit then total - Skip(page, limit)
    else limit
  }

  /** The `$count: 'total'` branch of the facet. */
  function Counter(total: nat): (r: seq<nat>)
    ensures r == [] <==> total == 0
    ensures r != [] ==> r == [total]
  {
    if total == 0 then [] else [total]
  }

  // ---------------------------------------------------------------------
  // The store scan and the aggregation pipeline

  /** Reads the keys of a collection in the store's natural order, which
      the model leaves unspecified. */
  method ScanKeys<R>(coll: map<Id, R>) returns (ids: seq<Id>)
    ensures NoDup(ids)
    ensures forall k :: k in ids <==> k in coll
  {
    ids := [];
    var rest := coll.Keys;
    while rest != {}
      invariant rest <= coll.Keys
      invariant NoDup(ids)
      invariant forall k :: k in ids <==> k in coll && k !in rest
      decreases |rest|
    {
      var k :| k in rest;
      ids := ids + [k];
      rest := rest - {k};
    }
  }

  /** The documents of a collection that a filter keeps. */
  ghost function Selected<R(!new)>(coll: map<Id, R>, keep: R -> bool): set<R>
  {
    set x | x in coll.Values && keep(x)
  }

  /** The pipeline `$match`, `$sort`, `$facet { list: [$skip, $limit],
      metaCounter: [$count] }` over one collection whose documents are
      pairwise distinct. The page is a window of one sorted arrangement
      (`arranged`) of exactly the match set, and the counter counts the
      whole match set. */
  method Aggregate<R(==,!new)>(coll: map<Id, R>, keep: R -> bool, key: R -> Option<int>, dir: Direction, page: int, limit: int)
    returns (r: Facet<R>, ghost arranged: seq<R>)
    requires page >= 1 && limit >= 1
    requires forall a, b :: a in coll && b in coll && coll[a] == coll[b] ==> a == b
    ensures forall x :: x in arranged <==> x in Selected(coll, keep)
    ensures NoDup(arranged) && SortedBy(arranged, key, dir)
    ensures |arranged| == |Selected(coll, keep)|
    ensures r.list == Window(arranged, page, limit) && NoDup(r.list)
    ensures r.metaCounter == Counter(|Selected(coll, keep)|)
  {
    var ids := ScanKeys(coll);
    var docs := seq(|ids|, i requires 0 <= i < |ids| => coll[ids[i]]);
    ScannedDocs(coll, ids, docs);
    var matched := Filter(docs, keep);
    FilterCount(docs, keep);
    FilterNoDup(docs, keep);
    assert (set x | x in docs && keep(x)) == Selected(coll, keep);
    var sorted := SortBy(matched, key, dir);
    SortBySorted(matched, key, dir);
    SortByKeeps(matched, key, dir);
    arranged := sorted;
    WindowNoDup(sorted, page, limit);
    r := Facet(Window(sorted, page, limit), Counter(|matched|));
  }

  /** The documents read through a duplicate-free key scan of a collection
      whose documents are pairwise distinct are the collection's documents,
      each once. */
  lemma ScannedDocs<R>(coll: map<Id, R>, ids: seq<Id>, docs: seq<R>)
    requires forall a, b :: a in coll && b in coll && coll[a] == coll[b] ==> a == b
    requires NoDup(ids) && forall k :: k in ids <==> k in coll
    requires |docs| == |ids| && forall i :: 0 <= i < |ids| ==> docs[i] == coll[ids[i]]
    ensures NoDup(docs)
    ensures forall x :: x in docs <==> x in coll.Values
  {
    forall i, j | 0 <= i < j < |docs| ensures docs[i] != docs[j] {
      assert ids[i] != ids[j];
    }
    forall x | x in coll.Values ensures x in docs {
      var k :| k in coll && coll[k] == x;
      var i :| 0 <= i < |ids| && ids[i] == k;
      assert docs[i] == x;
    }
  }

  /** Filtering keeps a sequence free of duplicates. */
  lemma FilterNoDup<R(!new)>(s: seq<R>, keep: R -> bool)
    requires NoDup(s)
    ensures NoDup(Filter(s, keep))
  {
    var m := Filter(s, keep);
    forall i, j | 0 <= i < j < |m| ensures m[i] != m[j] {
      if m[i] == m[j] {
        var x := m[i];
        assert m[..j] + m[j..] == m;
        assert multiset(m)[x] >= 2 by {
          assert x in multiset(m[..j]) && x in multiset(m[j..]);
          assert multiset(m) == multiset(m[..j]) + multiset(m[j..]);
        }
        Occurrences(s, x);
      }
    }
  }

  /** Sorting keeps the elements, their number and the absence of
      duplicates. */
  lemma SortByKeeps<R>(s: seq<R>, key: R -> Option<int>, dir: Direction)
    requires NoDup(s)
    ensures NoDup(SortBy(s, key, dir)) && |SortBy(s, key, dir)| == |s|
    ensures forall x :: x in SortBy(s, key, dir) <==> x in s
  {
    var t := SortBy(s, key, dir);
    NoDupPermutation(s, t);
    assert |multiset(t)| == |multiset(s)|;
    forall x ensures x in t <==> x in s {
      assert x in t <==> x in multiset(t);
      assert x in s <==> x in multiset(s);
    }
  }

  /** A window of a sequence without duplicates has none either. */
  lemma WindowNoDup<R>(s: seq<R>, page: int, limit: int)
    requires page >= 1 && limit >= 1 && NoDup(s)
    ensures NoDup(Window(s, page, limit))
  {
    var w := Window(s, page, limit);
    forall i, j | 0 <= i < j < |w| ensures w[i] != w[j] {
      assert w[i] == s[Skip(page, limit) + i] && w[j] == s[Skip(page, limit) + j];
    }
  }
}
