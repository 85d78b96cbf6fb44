/** The product sort engine: `sortProducts` sorts a copy of the product list
    with a numeric comparator on price or rating, and `getSortOptionLabel`
    names each option for display.

    `Array.prototype.sort` is required to be stable (section 23.1.3.30 of
    ECMA-262, 2023 edition), and a stable sort under a consistent comparator
    has exactly one possible result. The model computes that result with a
    stable insertion sort and proves it is the only sequence that is a
    sorted, stable rearrangement of the input (`SortedStableUnique`). */
module Sorting {
  import opened Types

  datatype SortKey = Price | Rating
  datatype Direction = Ascending | Descending

  function Key(p: Product, key: SortKey): real {
    match key
    case Price => p.price
    case Rating => p.rating
  }

  /** The comparator handed to `sort`: `a.k - b.k` ascending, `b.k - a.k`
      descending. A positive value puts `b` before `a`. */
  function Compare(a: Product, b: Product, key: SortKey, dir: Direction): real {
    match dir
    case Ascending => Key(a, key) - Key(b, key)
    case Descending => Key(b, key) - Key(a, key)
  }

  /** `a` may stand before `b` in the sorted output. */
  predicate InOrder(a: Product, b: Product, key: SortKey, dir: Direction) {
    Compare(a, b, key, dir) <= 0.0
  }

  ghost predicate SortedBy(s: seq<Product>, key: SortKey, dir: Direction) {
    forall i, j :: 0 <= i < j < |s| ==> InOrder(s[i], s[j], key, dir)
  }

  /** The products of `s` whose key equals `k`, in their order in `s`. */
  function WithKey(s: seq<Product>, key: SortKey, k: real): (r: seq<Product>)
    ensures |r| <= |s|
    ensures forall i :: 0 <= i < |r| ==> r[i] in s && Key(r[i], key) == k
  {
    if s == [] then []
    else if Key(s[0], key) == k then [s[0]] + WithKey(s[1..], key, k)
    else WithKey(s[1..], key, k)
  }

  /** Stability: for every key value, the products carrying it appear in
      `output` in the same order (and number) as in `input`. */
  ghost predicate Stable(input: seq<Product>, output: seq<Product>, key: SortKey) {
    forall k :: WithKey(output, key, k) == WithKey(input, key, k)
  }

  lemma WithKeyCons(x: Product, s: seq<Product>, key: SortKey, k: real)
    ensures WithKey([x] + s, key, k) == (if Key(x, key) == k then [x] else []) + WithKey(s, key, k)
  {
    assert ([x] + s)[1..] == s;
  }

  /** Inserts `x` into `t` in front of the first element it may precede;
      in a sorted `t` that is in front of every element with the same key. */
  function Insert(x: Product, t: seq<Product>, key: SortKey, dir: Direction): (r: seq<Product>)
    ensures multiset(r) == multiset([x] + t)
  {
    if t == [] || InOrder(x, t[0], key, dir) then [x] + t
    else
      assert t == [t[0]] + t[1..];
      [t[0]] + Insert(x, t[1..], key, dir)
  }

  /** The comparator is total: if `a` may not precede `b`, then `b` may
      precede `a`. */
  lemma InOrderTotal(a: Product, b: Product, key: SortKey, dir: Direction)
    ensures !InOrder(a, b, key, dir) ==> InOrder(b, a, key, dir)
  {
  }

  /** A product that may precede every element of a sorted sequence may be
      put in front of it. */
  lemma SortedCons(x: Product, s: seq<Product>, key: SortKey, dir: Direction)
    requires SortedBy(s, key, dir)
    requires forall j :: 0 <= j < |s| ==> InOrder(x, s[j], key, dir)
    ensures SortedBy([x] + s, key, dir)
  {
    var r := [x] + s;
    forall i, j | 0 <= i < j < |r| ensures InOrder(r[i], r[j], key, dir) {
      assert r[j] == s[j - 1];
      if i > 0 {
        assert r[i] == s[i - 1];
      }
    }
  }

  lemma {:induction false} InsertSorted(x: Product, t: seq<Product>, key: SortKey, dir: Direction)
    requires SortedBy(t, key, dir)
    ensures SortedBy(Insert(x, t, key, dir), key, dir)
  {
    if t == [] || InOrder(x, t[0], key, dir) {
      forall j | 0 <= j < |t| ensures InOrder(x, t[j], key, dir) {
        if j > 0 {
          assert InOrder(t[0], t[j], key, dir);
        }
      }
      SortedCons(x, t, key, dir);
    } else {
      var rest := Insert(x, t[1..], key, dir);
      InsertSorted(x, t[1..], key, dir);
      InOrderTotal(x, t[0], key, dir);
      forall j | 0 <= j < |rest| ensures InOrder(t[0], rest[j], key, dir) {
        assert rest[j] in multiset(rest);
        assert rest[j] == x || rest[j] in t[1..];
      }
      SortedCons(t[0], rest, key, dir);
    }
  }

  lemma {:induction false} InsertStable(x: Product, t: seq<Product>, key: SortKey, dir: Direction)
    ensures Stable([x] + t, Insert(x, t, key, dir), key)
  {
    if t != [] && !InOrder(x, t[0], key, dir) {
      var rest := Insert(x, t[1..], key, dir);
      InsertStable(x, t[1..], key, dir);
      forall k ensures WithKey([t[0]] + rest, key, k) == WithKey([x] + t, key, k) {
        WithKeyCons(t[0], rest, key, k);
        WithKeyCons(x, t, key, k);
        WithKeyCons(x, t[1..], key, k);
        WithKeyCons(t[0], t[1..], key, k);
        assert t == [t[0]] + t[1..];
      }
    }
  }

  /** Stable sort of `s` by `key` in direction `dir`. */
  function StableSort(s: seq<Product>, key: SortKey, dir: Direction): (r: seq<Product>)
    ensures SortedBy(r, key, dir)
    ensures multiset(r) == multiset(s)
    ensures Stable(s, r, key)
  {
    if s == [] then []
    else
      var sortedTail := StableSort(s[1..], key, dir);
      var r := Insert(s[0], sortedTail, key, dir);
      InsertSorted(s[0], sortedTail, key, dir);
      InsertStable(s[0], sortedTail, key, dir);
      assert s == [s[0]] + s[1..];
      forall k ensures WithKey(r, key, k) == WithKey(s, key, k) {
        WithKeyCons(s[0], sortedTail, key, k);
        WithKeyCons(s[0], s[1..], key, k);
      }
      r
  }

  /** What `SortedBy` says about the key values, and the length a
      permutation keeps. */
  lemma StableSortFacts(products: seq<Product>, key: SortKey, dir: Direction)
    ensures var r := StableSort(products, key, dir);
      && |r| == |products|
      && (dir == Ascending ==> forall i, j :: 0 <= i < j < |r| ==> Key(r[i], key) <= Key(r[j], key))
      && (dir == Descending ==> forall i, j :: 0 <= i < j < |r| ==> Key(r[i], key) >= Key(r[j], key))
  {
    var r := StableSort(products, key, dir);
    assert |r| == |multiset(r)| == |multiset(products)| == |products|;
    forall i, j | 0 <= i < j < |r| ensures InOrder(r[i], r[j], key, dir) {
    }
  }

  /** `sortProducts`: sorts a copy of `products` by the option's comparator;
      an unrecognized option returns the copy unchanged. The argument is a
      value, so the caller's list is untouched. */
  function SortProducts(products: seq<Product>, sortBy: SortOption): (r: seq<Product>)
    ensures |r| == |products| && multiset(r) == multiset(products)
    ensures sortBy == PriceAsc ==>
      (forall i, j :: 0 <= i < j < |r| ==> r[i].price <= r[j].price) && Stable(products, r, Price)
    ensures sortBy == PriceDesc ==>
      (forall i, j :: 0 <= i < j < |r| ==> r[i].price >= r[j].price) && Stable(products, r, Price)
    ensures sortBy == RatingAsc ==>
      (forall i, j :: 0 <= i < j < |r| ==> r[i].rating <= r[j].rating) && Stable(products, r, Rating)
    ensures sortBy == RatingDesc ==>
      (forall i, j :: 0 <= i < j < |r| ==> r[i].rating >= r[j].rating) && Stable(products, r, Rating)
    ensures sortBy.Unrecognized? ==> r == products
  {
    match sortBy
    case PriceAsc => StableSortFacts(products, Price, Ascending); StableSort(products, Price, Ascending)
    case PriceDesc => StableSortFacts(products, Price, Descending); StableSort(products, Price, Descending)
    case RatingAsc => StableSortFacts(products, Rating, Ascending); StableSort(products, Rating, Ascending)
    case RatingDesc => StableSortFacts(products, Rating, Descending); StableSort(products, Rating, Descending)
    case Unrecognized(_) => products
  }

  lemma WithKeyHead(s: seq<Product>, key: SortKey)
    requires s != []
    ensures WithKey(s, key, Key(s[0], key)) == [s[0]] + WithKey(s[1..], key, Key(s[0], key))
  {
  }

  /** Stability keeps emptiness: a product has a key, so it shows up in
      one of the per-key groups. */
  lemma StableEmpty(a: seq<Product>, b: seq<Product>, key: SortKey)
    requires Stable(a, b, key)
    ensures a == [] <==> b == []
  {
    if a != [] && b == [] {
      WithKeyHead(a, key);
      assert false;
    } else if a == [] && b != [] {
      WithKeyHead(b, key);
      assert false;
    }
  }

  /** The first element of a sorted sequence may precede each of its
      elements. */
  lemma FirstInOrder(s: seq<Product>, x: Product, key: SortKey, dir: Direction)
    requires SortedBy(s, key, dir) && x in s
    ensures InOrder(s[0], x, key, dir)
  {
    var j :| 0 <= j < |s| && s[j] == x;
    if j > 0 {
      assert InOrder(s[0], s[j], key, dir);
    }
  }

  /** Two sorted sequences with the same per-key groups start with the same
      product: their first keys bound each other, so they are one key, and
      that key's group starts with both first products. */
  lemma StableHeads(a: seq<Product>, b: seq<Product>, key: SortKey, dir: Direction)
    requires a != [] && b != []
    requires SortedBy(a, key, dir) && SortedBy(b, key, dir)
    requires Stable(a, b, key)
    ensures a[0] == b[0]
  {
    var ka, kb := Key(a[0], key), Key(b[0], key);
    WithKeyHead(a, key);
    WithKeyHead(b, key);
    assert WithKey(b, key, ka) == WithKey(a, key, ka);
    assert WithKey(b, key, kb) == WithKey(a, key, kb);
    FirstInOrder(b, WithKey(b, key, ka)[0], key, dir);
    FirstInOrder(a, WithKey(a, key, kb)[0], key, dir);
    assert ka == kb;
  }

  /** Removing the same first product from both keeps the groups equal. */
  lemma StableTails(a: seq<Product>, b: seq<Product>, key: SortKey)
    requires a != [] && b != [] && a[0] == b[0]
    requires Stable(a, b, key)
    ensures Stable(a[1..], b[1..], key)
  {
    forall k ensures WithKey(b[1..], key, k) == WithKey(a[1..], key, k) {
      WithKeyCons(a[0], a[1..], key, k);
      WithKeyCons(b[0], b[1..], key, k);
      assert a == [a[0]] + a[1..] && b == [b[0]] + b[1..];
      var group := WithKey(a, key, k);
      if Key(a[0], key) == k {
        assert WithKey(a[1..], key, k) == group[1..];
        assert WithKey(b[1..], key, k) == group[1..];
      }
    }
  }

  lemma SortedTail(s: seq<Product>, key: SortKey, dir: Direction)
    requires s != [] && SortedBy(s, key, dir)
    ensures SortedBy(s[1..], key, dir)
  {
    forall i, j | 0 <= i < j < |s| - 1 ensures InOrder(s[1..][i], s[1..][j], key, dir) {
      assert InOrder(s[i + 1], s[j + 1], key, dir);
    }
  }

  /** A sorted, stable rearrangement is unique: two sequences sorted by the
      same comparator that agree on the order of every group of equal keys
      are equal. Hence `StableSort` returns exactly what any conforming
      `Array.prototype.sort` returns. */
  lemma {:induction false} SortedStableUnique(a: seq<Product>, b: seq<Product>, key: SortKey, dir: Direction)
    requires SortedBy(a, key, dir) && SortedBy(b, key, dir)
    requires Stable(a, b, key)
    ensures a == b
    decreases |a|
  {
    StableEmpty(a, b, key);
    if a != [] {
      StableHeads(a, b, key, dir);
      StableTails(a, b, key);
      SortedTail(a, key, dir);
      SortedTail(b, key, dir);
      SortedStableUnique(a[1..], b[1..], key, dir);
      assert a == [a[0]] + a[1..] && b == [b[0]] + b[1..];
    }
  }

  /** The key and direction each known option sorts by. */
  function OptionKey(sortBy: SortOption): SortKey
    requires !sortBy.Unrecognized?
  {
    if sortBy == PriceAsc || sortBy == PriceDesc then Price else Rating
  }

  function OptionDirection(sortBy: SortOption): Direction
    requires !sortBy.Unrecognized?
  {
    if sortBy == PriceAsc || sortBy == RatingAsc then Ascending else Descending
  }

  /** For a known option, `SortProducts` returns the one and only sequence
      that is sorted by the option's comparator and keeps equal keys in
      their input order: whatever stable sort the JavaScript engine uses, it
      produces this result. */
  lemma SortProductsIsTheStableSort(products: seq<Product>, sortBy: SortOption, r: seq<Product>)
    requires !sortBy.Unrecognized?
    requires SortedBy(r, OptionKey(sortBy), OptionDirection(sortBy))
    requires Stable(products, r, OptionKey(sortBy))
    ensures r == SortProducts(products, sortBy)
  {
    var key, dir := OptionKey(sortBy), OptionDirection(sortBy);
    var sorted := StableSort(products, key, dir);
    assert SortProducts(products, sortBy) == sorted;
    SortedStableUnique(sorted, r, key, dir);
  }

  /** `getSortOptionLabel`: a label for each option, `"Default"` for anything
      unrecognized. */
  function GetSortOptionLabel(sortBy: SortOption): (text: string)
    ensures text == "Default" <==> sortBy.Unrecognized?
  {
    match sortBy
    case PriceAsc => "Price: Low to High"
    case PriceDesc => "Price: High to Low"
    case RatingAsc => "Rating: Low to High"
    case RatingDesc => "Rating: High to Low"
    case Unrecognized(_) => "Default"
  }

  /** The four known options never share a label. */
  lemma KnownLabelsDistinct(a: SortOption, b: SortOption)
    requires !a.Unrecognized? && !b.Unrecognized?
    requires a != b
    ensures GetSortOptionLabel(a) != GetSortOptionLabel(b)
  {
  }
}
