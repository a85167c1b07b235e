/** The reviews store (server/database.js): a connection pool that may be
    missing, the reviews of one product newest first, and their count and
    average rating. The table's contents and whether each query fails are
    inputs; the pool is the module's one piece of state. */
module ReviewsDb {
  import opened Wrappers
  import opened Text
  import opened Seqs
  import opened Sorting

  /** A row of the reviews table; `createdAt` is the creation time as an
      integer timestamp, `rating` a whole number of stars. */
  datatype Review = Review(id: int, username: string, avatar: Option<string>, productName: string,
                           description: string, rating: nat, createdAt: int)

  /** The collation of the `product_name` column, as its sort key: `a = b`
      holds exactly when `coll(a) == coll(b)`. A binary collation is the
      identity; the server's default collations fold case, and PAD SPACE
      ones also drop trailing spaces. */
  type Collation = string -> string

  /** The collation equates only equal names, as a binary one does. */
  ghost predicate Exact(coll: Collation)
  {
    forall a, b :: coll(a) == coll(b) ==> a == b
  }

  /** The test `product_name = ?` under the column's collation. */
  function NameIs(coll: Collation, name: string): Review -> bool
  {
    (r: Review) => coll(r.productName) == coll(name)
  }

  /** Sort key for `ORDER BY created_at DESC`. */
  function NewestFirst(r: Review): int
  {
    -r.createdAt
  }

  /** The rows of one product, newest first. The database leaves the order
      of equal timestamps open; the model keeps table order among them. */
  function Matching(coll: Collation, table: seq<Review>, name: string): seq<Review>
  {
    SortBy(Filter(table, NameIs(coll, name)), NewestFirst)
  }

  /** The answer holds exactly the product's rows, each as often as in the
      table. */
  lemma MatchingCounts(coll: Collation, table: seq<Review>, name: string)
    ensures forall r :: multiset(Matching(coll, table, name))[r] ==
                        if coll(r.productName) == coll(name) then multiset(table)[r] else 0
  {
    FilterCounts(table, NameIs(coll, name));
    SortByPermutation(Filter(table, NameIs(coll, name)), NewestFirst);
  }

  /** Every row of the answer has a name the collation equates with the one
      asked for; under an exact collation, that very name. */
  lemma MatchingNames(coll: Collation, table: seq<Review>, name: string)
    ensures forall i :: 0 <= i < |Matching(coll, table, name)| ==>
      coll(Matching(coll, table, name)[i].productName) == coll(name)
    ensures Exact(coll) ==>
      forall i :: 0 <= i < |Matching(coll, table, name)| ==> Matching(coll, table, name)[i].productName == name
  {
    var m := Matching(coll, table, name);
    MatchingCounts(coll, table, name);
    forall i | 0 <= i < |m|
      ensures coll(m[i].productName) == coll(name)
    {
      assert m[i] in multiset(m);
    }
  }

  /** No row of the answer is older than a row after it. */
  lemma MatchingNewestFirst(coll: Collation, table: seq<Review>, name: string)
    ensures forall i, j :: 0 <= i < j < |Matching(coll, table, name)| ==>
      Matching(coll, table, name)[i].createdAt >= Matching(coll, table, name)[j].createdAt
  {
    var m := Matching(coll, table, name);
    SortBySorted(Filter(table, NameIs(coll, name)), NewestFirst);
    forall i, j | 0 <= i < j < |m|
      ensures m[i].createdAt >= m[j].createdAt
    {
      assert NewestFirst(m[i]) <= NewestFirst(m[j]);
    }
  }

  /** example (one instance of the lemmas above): under a case-folding
      collation, asking for "kit" finds the review of "Kit". */
  lemma CaseFoldingExample()
    ensures var r := Review(1, "ann", None, "Kit", "ok", 5, 0);
      Matching(ToLower, [r], "kit") == [r]
  {
    var r := Review(1, "ann", None, "Kit", "ok", 5, 0);
    assert ToLower("Kit") == ToLower("kit") == "kit";
    assert NameIs(ToLower, "kit")(r);
    assert [r][1..] == [];
    assert Filter([r], NameIs(ToLower, "kit")) == [r];
    assert SortBy([r], NewestFirst) == InsertBy(r, [], NewestFirst) == [r];
  }

  // ---------------------------------------------------------------------
  // The average, as the route prints it

  function SumRatings(rows: seq<Review>): nat
  {
    if rows == [] then 0 else SumRatings(rows[..|rows| - 1]) + rows[|rows| - 1].rating
  }

  /** The mean in tenths, rounded half up: the integer T with
      T - 1/2 <= 10 * sum / count < T + 1/2. */
  function MeanTenths(sum: nat, count: nat): (t: nat)
    requires count > 0
    ensures 2 * count * t <= 20 * sum + count < 2 * count * t + 2 * count
  {
    var t := (20 * sum + count) / (2 * count);
    assert 20 * sum + count == 2 * count * t + (20 * sum + count) % (2 * count);
    t
  }

  /** A number of tenths written with one decimal ("4.0", "12.5"). */
  function TenthsText(t: nat): string
  {
    NatToString(t / 10) + "." + [DigitChar(t % 10)]
  }

  /** The average rating field: the number 0 on the fallback paths, a text
      with one decimal on the computed path. */
  datatype Average = ZeroNumber | OneDecimal(text: string)

  datatype Stats = Stats(total: nat, averageRating: Average)

  const FallbackStats: Stats := Stats(0, ZeroNumber)

  /** The computed statistics of the product's rows: an empty result
      averages to "0.0". */
  function ComputedStats(rows: seq<Review>): (s: Stats)
    ensures s.total == |rows|
    ensures s.averageRating.OneDecimal?
    ensures rows == [] ==> s.averageRating == OneDecimal("0.0")
  {
    if rows == [] then Stats(0, OneDecimal(TenthsText(0)))
    else Stats(|rows|, OneDecimal(TenthsText(MeanTenths(SumRatings(rows), |rows|))))
  }

  /** The sum of ratings that all lie in [lo, hi]. */
  lemma {:induction false} SumBounds(rows: seq<Review>, lo: nat, hi: nat)
    requires forall i :: 0 <= i < |rows| ==> lo <= rows[i].rating <= hi
    ensures |rows| * lo <= SumRatings(rows) <= |rows| * hi
    decreases |rows|
  {
    if rows != [] {
      var init := rows[..|rows| - 1];
      SumBounds(init, lo, hi);
      var n := |init|;
      assert SumRatings(rows) == SumRatings(init) + rows[n].rating;
      MulSucc(n, lo);
      MulSucc(n, hi);
    }
  }

  /** Rounding keeps the mean between the least and the greatest possible
      rating: with ratings from 1 to 5 stars the text lies from "1.0" to "5.0". */
  lemma MeanTenthsBounds(sum: nat, count: nat, lo: nat, hi: nat)
    requires count > 0 && count * lo <= sum <= count * hi
    ensures 10 * lo <= MeanTenths(sum, count) <= 10 * hi
  {
    var t := MeanTenths(sum, count);
    var c := 2 * count;
    assert c * (10 * lo) == 20 * (count * lo);
    assert c * (t + 1) == 2 * count * t + 2 * count;
    MulCancelLess(c, 10 * lo, t + 1);
    assert c * (10 * hi + 1) == 20 * (count * hi) + 2 * count;
    assert c * t == 2 * count * t;
    MulCancelLess(c, t, 10 * hi + 1);
  }

  /** With every rating between `lo` and `hi` stars, the printed average
      lies between lo and hi as well. */
  lemma AverageWithinRatings(rows: seq<Review>, lo: nat, hi: nat)
    requires |rows| > 0
    requires forall i :: 0 <= i < |rows| ==> lo <= rows[i].rating <= hi
    ensures var t := MeanTenths(SumRatings(rows), |rows|);
      10 * lo <= t <= 10 * hi && ComputedStats(rows).averageRating == OneDecimal(TenthsText(t))
  {
    SumBounds(rows, lo, hi);
    MeanTenthsBounds(SumRatings(rows), |rows|, lo, hi);
  }

  lemma MulSucc(n: nat, x: nat)
    ensures (n + 1) * x == n * x + x
  {
  }

  lemma MulCancelLess(c: nat, a: nat, b: nat)
    requires c > 0 && c * a < c * b
    ensures a < b
  {
    if a >= b {
      MulMonotone(c, b, a);
    }
  }

  lemma MulMonotone(c: nat, a: nat, b: nat)
    requires a <= b
    ensures c * a <= c * b
  {
  }

  lemma StatsExample()
    ensures var rows := [Review(1, "a", None, "Kit", "", 5, 3), Review(2, "b", None, "Kit", "", 4, 2),
                         Review(3, "c", None, "Kit", "", 3, 1)];
      ComputedStats(rows) == Stats(3, OneDecimal("4.0"))
  {
    var rows := [Review(1, "a", None, "Kit", "", 5, 3), Review(2, "b", None, "Kit", "", 4, 2),
                 Review(3, "c", None, "Kit", "", 3, 1)];
    assert rows[..2] == [rows[0], rows[1]];
    assert rows[..2][..1] == [rows[0]];
    assert rows[..2][..1][..0] == [];
    assert SumRatings(rows[..2][..1]) == 5;
    assert SumRatings(rows[..2]) == 9;
    assert SumRatings(rows) == 12;
    assert MeanTenths(12, 3) == 40;
    assert NatToString(4) == "4" && DigitChar(0) == '0';
  }

  // ---------------------------------------------------------------------
  // The pool and the two queries

  class ReviewDatabase {
    /** Whether the module's pool variable holds a pool. */
    var hasPool: bool

    constructor ()
      ensures !hasPool
    {
      hasPool := false;
    }

    /** initDatabase: create the pool, then test one connection. A failed
        test still leaves the new pool in place, though the answer is null;
        a failure to create it leaves the variable as it was. */
    method InitDatabase(created: bool, connected: bool) returns (pool: bool)
      modifies this
      ensures hasPool == (old(hasPool) || created)
      ensures pool <==> created && connected
    {
      if !created {
        return false;
      }
      hasPool := true;
      if !connected {
        return false;
      }
      return true;
    }

    /** getReviewsByProductName; `queryOk` is whether the query succeeds. */
    function ReviewsByProductName(coll: Collation, table: seq<Review>, name: string, queryOk: bool): (rows: seq<Review>)
      reads this
      ensures !hasPool || !queryOk ==> rows == []
      ensures hasPool && queryOk ==> rows == Matching(coll, table, name)
    {
      if !hasPool then [] else if !queryOk then [] else Matching(coll, table, name)
    }

    /** getProductReviewStats */
    function ProductReviewStats(coll: Collation, table: seq<Review>, name: string, queryOk: bool): (s: Stats)
      reads this
      ensures !hasPool || !queryOk ==> s == FallbackStats
      ensures hasPool && queryOk ==> s == ComputedStats(Filter(table, NameIs(coll, name)))
    {
      if !hasPool then FallbackStats
      else if !queryOk then FallbackStats
      else ComputedStats(Filter(table, NameIs(coll, name)))
    }
  }

  /** The count reported is the number of reviews listed, whenever both
      queries succeed or both fall back. */
  lemma StatsCountListed(db: ReviewDatabase, coll: Collation, table: seq<Review>, name: string, queryOk: bool)
    ensures db.ProductReviewStats(coll, table, name, queryOk).total == |db.ReviewsByProductName(coll, table, name, queryOk)|
  {
    if db.hasPool && queryOk {
      SortByLength(Filter(table, NameIs(coll, name)), NewestFirst);
    }
  }
}
