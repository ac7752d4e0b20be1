/**
  The country-clustering and renumbering steps of `generateIataToRegionNumberMapping.ts`,
  from the point where the rows are in travelling-salesman order.
 */
module AirportClustering {
  import opened Arithmetic
  import opened Wrappers

  datatype Row = Row(code: string, x: string, y: string, number: nat, continent: string, country: string)

  /** A maximal run of rows of one country: `begin` inclusive, `end` exclusive. */
  datatype Cluster = Cluster(begin: nat, end: nat)

  // ------------------------------------------------------------------ vocabulary

  /** The rows `lo..hi` that are of the country, in order. */
  ghost function Own(rows: seq<Row>, lo: nat, hi: nat, country: string): seq<Row>
    requires lo <= hi <= |rows|
  {
    if lo == hi then []
    else Own(rows, lo, hi - 1, country) + (if rows[hi - 1].country == country then [rows[hi - 1]] else [])
  }

  /** The rows `lo..hi` that are not of the country, in order. */
  ghost function Others(rows: seq<Row>, lo: nat, hi: nat, country: string): seq<Row>
    requires lo <= hi <= |rows|
  {
    if lo == hi then []
    else Others(rows, lo, hi - 1, country) + (if rows[hi - 1].country != country then [rows[hi - 1]] else [])
  }

  ghost predicate AllOf(rows: seq<Row>, lo: nat, hi: nat, country: string)
    requires lo <= hi <= |rows|
  {
    forall k | lo <= k < hi :: rows[k].country == country
  }

  ghost predicate NoneOf(rows: seq<Row>, lo: nat, hi: nat, country: string)
    requires lo <= hi <= |rows|
  {
    forall k | lo <= k < hi :: rows[k].country != country
  }

  ghost predicate Block(rows: seq<Row>, country: string, i: nat, j: nat) {
    && i <= j <= |rows|
    && forall k | 0 <= k < |rows| :: rows[k].country == country <==> i <= k < j
  }

  /** The rows of the country are one uninterrupted stretch. */
  ghost predicate Contiguous(rows: seq<Row>, country: string) {
    exists i, j :: Block(rows, country, i, j)
  }

  ghost predicate IsRun(rows: seq<Row>, country: string, c: Cluster) {
    && c.begin < c.end <= |rows|
    && AllOf(rows, c.begin, c.end, country)
    && (c.begin > 0 ==> rows[c.begin - 1].country != country)
    && (c.end < |rows| ==> rows[c.end].country != country)
  }

  ghost predicate AreRuns(rows: seq<Row>, country: string, clusters: seq<Cluster>) {
    forall c <- clusters :: IsRun(rows, country, c)
  }

  /** Every row of the country below `upTo` is in one of the clusters. */
  ghost predicate Covered(rows: seq<Row>, country: string, clusters: seq<Cluster>, upTo: nat)
    requires upTo <= |rows|
  {
    forall i | 0 <= i < upTo && rows[i].country == country :: exists c <- clusters :: c.begin <= i < c.end
  }

  /** The rows of the clusters, cluster after cluster. */
  ghost function Flatten(rows: seq<Row>, clusters: seq<Cluster>): seq<Row>
    requires forall c <- clusters :: c.begin <= c.end <= |rows|
  {
    if clusters == [] then []
    else rows[clusters[0].begin..clusters[0].end] + Flatten(rows, clusters[1..])
  }

  /** The rows of the country gathered into `block` at position `at`, all other rows in their old order. */
  ghost function Gathered(rows: seq<Row>, country: string, at: nat, block: seq<Row>): seq<Row>
    requires at <= |rows|
  {
    Others(rows, 0, at, country) + block + Others(rows, at, |rows|, country)
  }

  // ------------------------------------------------------------------ one pass

  method FindBegin(rows: seq<Row>, country: string, from: nat) returns (begin: int)
    requires from <= |rows|
    ensures begin == -1 ==> NoneOf(rows, from, |rows|, country)
    ensures begin != -1 ==> from <= begin < |rows| && rows[begin].country == country
    ensures begin != -1 ==> from <= begin <= |rows| && NoneOf(rows, from, begin, country)
  {
    begin := -1;
    var i := from;
    while i < |rows|
      invariant from <= i <= |rows|
      invariant NoneOf(rows, from, i, country)
    {
      if rows[i].country == country {
        begin := i;
        return;
      }
      i := i + 1;
    }
  }

  method FindEnd(rows: seq<Row>, country: string, begin: nat) returns (end: nat)
    requires begin < |rows| && rows[begin].country == country
    ensures begin < end <= |rows| && AllOf(rows, begin, end, country)
    ensures end < |rows| ==> rows[end].country != country
  {
    var i := begin;
    while i < |rows|
      invariant begin <= i <= |rows|
      invariant AllOf(rows, begin, i, country)
    {
      if rows[i].country != country {
        end := i;
        return;
      }
      i := i + 1;
    }
    end := |rows|;
  }

  /** One cluster after the other. */
  ghost predicate Spaced(clusters: seq<Cluster>) {
    forall i, k | 0 <= i < k < |clusters| :: clusters[i].begin < clusters[k].begin
  }

  ghost predicate AllBefore(clusters: seq<Cluster>, j: nat) { forall c <- clusters :: c.begin < j }

  /** The runs below `j` have been found, and `j` is not inside a run. */
  ghost predicate Scanned(rows: seq<Row>, country: string, clusters: seq<Cluster>, j: nat) {
    && AreRuns(rows, country, clusters)
    && Spaced(clusters) && AllBefore(clusters, j)
    && (0 < j <= |rows| ==> rows[j - 1].country != country)
    && Flatten(rows, clusters) == Own(rows, 0, Min(j, |rows|), country)
    && Covered(rows, country, clusters, Min(j, |rows|))
  }

  method FindClusters(rows: seq<Row>, country: string) returns (clusters: seq<Cluster>)
    ensures AreRuns(rows, country, clusters)
    ensures Flatten(rows, clusters) == Own(rows, 0, |rows|, country)
    ensures Covered(rows, country, clusters, |rows|)
    ensures Spaced(clusters)
  {
    clusters := [];
    var j := 0;
    while j < |rows|
      invariant 0 <= j <= |rows| + 1
      invariant Scanned(rows, country, clusters, j)
    {
      var begin := FindBegin(rows, country, j);
      if begin == -1 {
        ScanEnds(rows, country, clusters, j);
        return;
      }
      var end := FindEnd(rows, country, begin);
      ScanStep(rows, country, clusters, j, begin, end);
      clusters := clusters + [Cluster(begin, end)];
      j := end + 1;
    }
  }

  function Size(c: Cluster): int { c.end - c.begin }

  ghost predicate LargestFirst(clusters: seq<Cluster>) {
    forall i, j | 0 <= i < j < |clusters| :: Size(clusters[i]) >= Size(clusters[j])
  }

  /** `Array.sort` with the size comparator: stable, largest cluster first. */
  function SortBySize(clusters: seq<Cluster>): (sorted: seq<Cluster>)
    ensures multiset(sorted) == multiset(clusters)
    ensures LargestFirst(sorted)
  {
    if clusters == [] then []
    else
      assert clusters == [clusters[0]] + clusters[1..];
      InsertBySize(clusters[0], SortBySize(clusters[1..]))
  }

  function InsertBySize(c: Cluster, sorted: seq<Cluster>): (r: seq<Cluster>)
    requires LargestFirst(sorted)
    ensures multiset(r) == multiset([c]) + multiset(sorted)
    ensures LargestFirst(r)
  {
    if sorted == [] || Size(c) >= Size(sorted[0]) then [c] + sorted
    else
      assert sorted == [sorted[0]] + sorted[1..];
      var rest := InsertBySize(c, sorted[1..]);
      LargestStays(sorted, c, rest);
      [sorted[0]] + rest
  }

  /** The larger cluster comes first, and of two equal ones the earlier. */
  predicate Outranks(c: Cluster, d: Cluster) { Size(c) > Size(d) || (Size(c) == Size(d) && c.begin < d.begin) }

  ghost predicate InRank(clusters: seq<Cluster>) {
    forall i, j | 0 <= i < j < |clusters| :: Outranks(clusters[i], clusters[j])
  }

  lemma {:induction false} InsertRanks(c: Cluster, sorted: seq<Cluster>)
    requires LargestFirst(sorted) && InRank(sorted) && forall d <- sorted :: c.begin < d.begin
    ensures InRank(InsertBySize(c, sorted))
  {
    if sorted != [] && Size(c) < Size(sorted[0]) {
      InsertRanks(c, sorted[1..]);
      var rest := InsertBySize(c, sorted[1..]);
      forall d <- rest ensures Outranks(sorted[0], d) {
        assert d in multiset(rest);
        assert d == c || d in sorted[1..];
      }
    }
  }

  /** Sorting clusters that were found from left to right. */
  lemma {:induction false} SortRanks(clusters: seq<Cluster>)
    requires Spaced(clusters)
    ensures InRank(SortBySize(clusters))
  {
    if clusters != [] {
      SortRanks(clusters[1..]);
      var rest := SortBySize(clusters[1..]);
      forall d <- rest ensures clusters[0].begin < d.begin {
        assert d in multiset(rest);
        assert d in clusters[1..];
      }
      InsertRanks(clusters[0], rest);
    }
  }

  lemma LargestStays(sorted: seq<Cluster>, c: Cluster, rest: seq<Cluster>)
    requires sorted != [] && LargestFirst(sorted) && Size(c) < Size(sorted[0])
    requires multiset(rest) == multiset([c]) + multiset(sorted[1..]) && LargestFirst(rest)
    ensures LargestFirst([sorted[0]] + rest)
  {
    forall d <- rest ensures Size(d) <= Size(sorted[0]) {
      assert d in multiset(rest);
      assert d == c || d in sorted[1..];
    }
  }

  method CollectCountry(rows: seq<Row>, clusters: seq<Cluster>) returns (countryArray: seq<Row>)
    requires forall c <- clusters :: c.begin <= c.end <= |rows|
    ensures countryArray == Flatten(rows, clusters)
  {
    countryArray := [];
    for k := 0 to |clusters|
      invariant countryArray == Flatten(rows, clusters[..k])
    {
      for i := clusters[k].begin to clusters[k].end
        invariant countryArray == Flatten(rows, clusters[..k]) + rows[clusters[k].begin..i]
      {
        countryArray := countryArray + [rows[i]];
      }
      assert clusters[..k + 1] == clusters[..k] + [clusters[k]];
      FlattenAppend(rows, clusters[..k], clusters[k]);
    }
    assert clusters[..|clusters|] == clusters;
  }

  /**
    The two jumps of the copying loop: over the first cluster if `i` is its beginning, then over
    every other cluster that begins at the index reached.
   */
  method SkipClusters(rows: seq<Row>, country: string, clusters: seq<Cluster>, start: nat) returns (i: nat)
    requires clusters != [] && AreRuns(rows, country, clusters)
    requires start < |rows| && (start > 0 && rows[start].country == country ==> rows[start - 1].country != country)
    requires rows[start].country == country ==> exists c <- clusters :: c.begin <= start < c.end
    ensures start <= i <= |rows| && AllOf(rows, start, i, country)
    ensures i < |rows| ==> rows[i].country != country
    ensures start == clusters[0].begin ==> i == clusters[0].end
    ensures rows[start].country != country ==> i == start
  {
    i := start;
    if i == clusters[0].begin {
      i := clusters[0].end;
    }
    if rows[start].country == country {
      StartsARun(rows, country, clusters, start);
    }
    var j := 1;
    while j < |clusters|
      invariant 1 <= j <= |clusters|
      invariant i == start || IsRun(rows, country, Cluster(start, i))
      invariant start == clusters[0].begin ==> i == clusters[0].end
      invariant i == start && rows[start].country == country ==>
                  exists k | j <= k < |clusters| :: clusters[k].begin == start
    {
      assert clusters[j] in clusters;
      if i == clusters[j].begin {
        i := clusters[j].end;
      }
      j := j + 1;
    }
  }

  /** What the copying loop has built when `i` rows have been passed. */
  ghost function Copied(rows: seq<Row>, country: string, at: nat, block: seq<Row>, i: nat): seq<Row>
    requires at <= |rows| && i <= |rows|
  {
    if i <= at then Others(rows, 0, i, country)
    else Others(rows, 0, at, country) + block + Others(rows, at, i, country)
  }

  /** Row `i` does not continue a run of the country. */
  ghost predicate AtBoundary(rows: seq<Row>, country: string, i: nat) {
    0 < i < |rows| && rows[i].country == country ==> rows[i - 1].country != country
  }

  /** One turn of the copying loop, from index `start` to the index after `i`. */
  method CopyTurn(rows: seq<Row>, country: string, clusters: seq<Cluster>, countryArray: seq<Row>, start: nat,
                  before: seq<Row>)
    returns (i: nat, newArray: seq<Row>)
    requires clusters != [] && IsRun(rows, country, clusters[0]) && AreRuns(rows, country, clusters)
    requires Covered(rows, country, clusters, |rows|) && start < |rows| && AtBoundary(rows, country, start)
    ensures start <= i <= |rows| && AtBoundary(rows, country, i + 1)
    ensures AllOf(rows, start, i, country) && (i < |rows| ==> rows[i].country != country)
    ensures newArray
        == before + (if start == clusters[0].begin then countryArray else []) + (if i < |rows| then [rows[i]] else [])
  {
    newArray := before;
    if start == clusters[0].begin {
      newArray := newArray + countryArray;
    }
    assert newArray == before + (if start == clusters[0].begin then countryArray else []);
    InSomeCluster(rows, country, clusters, start);
    i := SkipClusters(rows, country, clusters, start);
    if i < |rows| {
      newArray := newArray + [rows[i]];
    } else {
      assert newArray + [] == newArray;
    }
  }

  /** The copying loop: the gathered country goes where its first cluster was. */
  method Rebuild(rows: seq<Row>, country: string, clusters: seq<Cluster>, countryArray: seq<Row>)
    returns (newArray: seq<Row>)
    requires clusters != [] && IsRun(rows, country, clusters[0]) && AreRuns(rows, country, clusters)
    requires Covered(rows, country, clusters, |rows|)
    ensures newArray == Gathered(rows, country, clusters[0].begin, countryArray)
  {
    newArray := [];
    ghost var at := clusters[0].begin;
    var i := 0;
    while i < |rows|
      invariant 0 <= i <= |rows| + 1 && AtBoundary(rows, country, i)
      invariant newArray == Copied(rows, country, at, countryArray, Min(i, |rows|))
    {
      ghost var start := i;
      i, newArray := CopyTurn(rows, country, clusters, countryArray, i, newArray);
      CopyStep(rows, country, at, countryArray, start, i);
      i := i + 1;
    }
    CopiedAll(rows, country, at, countryArray);
  }

  lemma InSomeCluster(rows: seq<Row>, country: string, clusters: seq<Cluster>, i: nat)
    requires Covered(rows, country, clusters, |rows|) && i < |rows|
    ensures rows[i].country == country ==> exists c <- clusters :: c.begin <= i < c.end
  {
  }

  lemma CopiedAll(rows: seq<Row>, country: string, at: nat, block: seq<Row>)
    requires at < |rows|
    ensures Copied(rows, country, at, block, |rows|) == Gathered(rows, country, at, block)
  {
  }

  // ------------------------------------------------------------------ lemmas on one pass

  lemma {:induction false} Split(rows: seq<Row>, lo: nat, mid: nat, hi: nat, country: string)
    requires lo <= mid <= hi <= |rows|
    ensures Own(rows, lo, hi, country) == Own(rows, lo, mid, country) + Own(rows, mid, hi, country)
    ensures Others(rows, lo, hi, country) == Others(rows, lo, mid, country) + Others(rows, mid, hi, country)
  {
    if mid < hi {
      Split(rows, lo, mid, hi - 1, country);
    }
  }

  lemma {:induction false} Pure(rows: seq<Row>, lo: nat, hi: nat, country: string)
    requires lo <= hi <= |rows|
    ensures NoneOf(rows, lo, hi, country)
        ==> Own(rows, lo, hi, country) == [] && Others(rows, lo, hi, country) == rows[lo..hi]
    ensures AllOf(rows, lo, hi, country)
        ==> Own(rows, lo, hi, country) == rows[lo..hi] && Others(rows, lo, hi, country) == []
  {
    if lo < hi {
      Pure(rows, lo, hi - 1, country);
      assert rows[lo..hi] == rows[lo..hi - 1] + [rows[hi - 1]];
    }
  }

  lemma {:induction false} FlattenAppend(rows: seq<Row>, clusters: seq<Cluster>, c: Cluster)
    requires forall d <- clusters :: d.begin <= d.end <= |rows|
    requires c.begin <= c.end <= |rows|
    ensures forall d <- clusters + [c] :: d.begin <= d.end <= |rows|
    ensures Flatten(rows, clusters + [c]) == Flatten(rows, clusters) + rows[c.begin..c.end]
  {
    if clusters == [] {
      assert clusters + [c] == [c];
      assert Flatten(rows, [c][1..]) == [];
    } else {
      assert (clusters + [c])[1..] == clusters[1..] + [c];
      FlattenAppend(rows, clusters[1..], c);
      Associates(rows[clusters[0].begin..clusters[0].end], Flatten(rows, clusters[1..]), rows[c.begin..c.end]);
    }
  }

  lemma Associates(a: seq<Row>, b: seq<Row>, c: seq<Row>)
    ensures a + (b + c) == a + b + c
  {
  }

  /** Moving the scan past a gap without the country and then past one of its runs. */
  lemma OwnExtends(rows: seq<Row>, country: string, j: nat, begin: nat, end: nat)
    requires j <= begin < end <= |rows|
    requires NoneOf(rows, j, begin, country) && AllOf(rows, begin, end, country)
    requires end < |rows| ==> rows[end].country != country
    ensures Own(rows, 0, Min(end + 1, |rows|), country) == Own(rows, 0, j, country) + rows[begin..end]
  {
    Split(rows, 0, j, begin, country);
    Pure(rows, j, begin, country);
    Split(rows, 0, begin, end, country);
    Pure(rows, begin, end, country);
  }

  /** One turn of the scan: the run it finds is a cluster of its own. */
  lemma ScanStep(rows: seq<Row>, country: string, clusters: seq<Cluster>, j: nat, begin: nat, end: nat)
    requires j <= |rows| && Scanned(rows, country, clusters, j)
    requires j <= begin < end <= |rows| && NoneOf(rows, j, begin, country) && AllOf(rows, begin, end, country)
    requires end < |rows| ==> rows[end].country != country
    ensures Scanned(rows, country, clusters + [Cluster(begin, end)], end + 1)
  {
    OwnExtends(rows, country, j, begin, end);
    FlattenAppend(rows, clusters, Cluster(begin, end));
    CoverageGrows(rows, country, clusters, j, begin, end);
    SpacingGrows(clusters, j, Cluster(begin, end));
  }

  lemma SpacingGrows(clusters: seq<Cluster>, j: nat, c: Cluster)
    requires Spaced(clusters) && AllBefore(clusters, j) && j <= c.begin < c.end
    ensures Spaced(clusters + [c]) && AllBefore(clusters + [c], c.end + 1)
  {
    assert forall k | 0 <= k < |clusters| :: clusters[k] in clusters;
  }

  /** When no more row of the country is found, all its rows are in clusters. */
  lemma ScanEnds(rows: seq<Row>, country: string, clusters: seq<Cluster>, j: nat)
    requires j <= |rows| && Scanned(rows, country, clusters, j) && NoneOf(rows, j, |rows|, country)
    ensures Flatten(rows, clusters) == Own(rows, 0, |rows|, country) && Covered(rows, country, clusters, |rows|)
  {
    Split(rows, 0, j, |rows|, country);
    Pure(rows, j, |rows|, country);
    assert Own(rows, 0, j, country) + [] == Own(rows, 0, j, country);
  }

  lemma CoverageGrows(rows: seq<Row>, country: string, clusters: seq<Cluster>, j: nat, begin: nat, end: nat)
    requires j <= begin < end <= |rows|
    requires NoneOf(rows, j, begin, country)
    requires end < |rows| ==> rows[end].country != country
    requires Covered(rows, country, clusters, j)
    ensures Covered(rows, country, clusters + [Cluster(begin, end)], Min(end + 1, |rows|))
  {
    forall i | 0 <= i < Min(end + 1, |rows|) && rows[i].country == country
      ensures exists c <- clusters + [Cluster(begin, end)] :: c.begin <= i < c.end
    {
      if i < j {
        var c :| c in clusters && c.begin <= i < c.end;
        assert c in clusters + [Cluster(begin, end)];
      } else {
        assert Cluster(begin, end) in clusters + [Cluster(begin, end)];
      }
    }
  }

  /** A row of the country whose predecessor is of another one begins one of the clusters. */
  lemma StartsARun(rows: seq<Row>, country: string, clusters: seq<Cluster>, start: nat)
    requires AreRuns(rows, country, clusters)
    requires start < |rows| && (start > 0 ==> rows[start - 1].country != country)
    requires exists c <- clusters :: c.begin <= start < c.end
    ensures exists k | 0 <= k < |clusters| :: clusters[k].begin == start
  {
    var c :| c in clusters && c.begin <= start < c.end;
    var k :| 0 <= k < |clusters| && clusters[k] == c;
    assert c.begin == start;
  }

  /** A jump that starts before a run of the country does not go past the beginning of that run. */
  lemma NotPast(rows: seq<Row>, country: string, start: nat, i: nat, at: nat)
    requires start < at < |rows| && start <= i <= |rows|
    requires AllOf(rows, start, i, country)
    requires rows[at - 1].country != country
    ensures i < at
  {
  }

  /** One turn of the copying loop. */
  lemma CopyStep(rows: seq<Row>, country: string, at: nat, block: seq<Row>, start: nat, i: nat)
    requires at < |rows| && rows[at].country == country && (at > 0 ==> rows[at - 1].country != country)
    requires start < |rows| && start <= i <= |rows| && AllOf(rows, start, i, country)
    requires i < |rows| ==> rows[i].country != country
    ensures Copied(rows, country, at, block, Min(i + 1, |rows|))
         == Copied(rows, country, at, block, start) + (if start == at then block else [])
          + (if i < |rows| then [rows[i]] else [])
  {
    if start < at {
      NotPast(rows, country, start, i, at);
      OthersSkips(rows, country, 0, start, i);
    } else {
      OthersSkips(rows, country, at, start, i);
    }
  }

  lemma OthersSkips(rows: seq<Row>, country: string, from: nat, start: nat, i: nat)
    requires from <= start <= i <= |rows|
    requires AllOf(rows, start, i, country)
    requires i < |rows| ==> rows[i].country != country
    ensures Others(rows, from, Min(i + 1, |rows|), country)
         == Others(rows, from, start, country) + (if i < |rows| then [rows[i]] else [])
  {
    Split(rows, from, start, i, country);
    Pure(rows, start, i, country);
    assert Others(rows, from, i, country) == Others(rows, from, start, country);
    if i < |rows| {
      assert Min(i + 1, |rows|) == i + 1;
    } else {
      assert Others(rows, from, start, country) + [] == Others(rows, from, start, country);
    }
  }

  // ------------------------------------------------------------------ what a pass keeps

  ghost predicate Only(rows: seq<Row>, country: string) { forall r <- rows :: r.country == country }

  ghost predicate Free(rows: seq<Row>, country: string) { forall r <- rows :: r.country != country }

  lemma Sandwich(a: seq<Row>, b: seq<Row>, c: seq<Row>, country: string)
    requires Free(a, country) && Only(b, country) && Free(c, country)
    ensures Contiguous(a + b + c, country)
  {
    assert Block(a + b + c, country, |a|, |a + b|);
  }

  lemma {:induction false} OthersMembers(rows: seq<Row>, lo: nat, hi: nat, country: string, other: string)
    requires lo <= hi <= |rows|
    ensures Free(Others(rows, lo, hi, country), country)
    ensures NoneOf(rows, lo, hi, other) ==> Free(Others(rows, lo, hi, country), other)
    ensures AllOf(rows, lo, hi, other) ==> Only(Others(rows, lo, hi, country), other)
  {
    if lo < hi {
      OthersMembers(rows, lo, hi - 1, country, other);
    }
  }

  lemma {:induction false} FlattenMembers(rows: seq<Row>, clusters: seq<Cluster>, country: string)
    requires AreRuns(rows, country, clusters)
    ensures Only(Flatten(rows, clusters), country)
  {
    if clusters != [] {
      assert clusters[0] in clusters;
      FlattenMembers(rows, clusters[1..], country);
    }
  }

  lemma CountsOneMore(rows: seq<Row>, r: Row)
    ensures multiset(rows + [r]) == multiset(rows) + multiset{r}
    ensures multiset(rows + []) == multiset(rows)
  {
    assert rows + [] == rows;
  }

  /** The rows `lo..hi`, built up row by row. */
  ghost function Span(rows: seq<Row>, lo: nat, hi: nat): seq<Row>
    requires lo <= hi <= |rows|
  {
    if lo == hi then [] else Span(rows, lo, hi - 1) + [rows[hi - 1]]
  }

  lemma {:induction false} SpanIsSlice(rows: seq<Row>, lo: nat, hi: nat)
    requires lo <= hi <= |rows|
    ensures Span(rows, lo, hi) == rows[lo..hi]
  {
    if lo < hi {
      SpanIsSlice(rows, lo, hi - 1);
    }
  }

  lemma PartitionStep(all: seq<Row>, own: seq<Row>, others: seq<Row>, r: Row, mine: bool)
    requires multiset(all) == multiset(own) + multiset(others)
    ensures multiset(all + [r])
        == multiset(own + (if mine then [r] else [])) + multiset(others + (if mine then [] else [r]))
  {
    CountsOneMore(all, r);
    CountsOneMore(own, r);
    CountsOneMore(others, r);
  }

  lemma {:induction false} SpanPartition(rows: seq<Row>, lo: nat, hi: nat, country: string)
    requires lo <= hi <= |rows|
    ensures multiset(Span(rows, lo, hi))
        == multiset(Own(rows, lo, hi, country)) + multiset(Others(rows, lo, hi, country))
  {
    if lo < hi {
      SpanPartition(rows, lo, hi - 1, country);
      PartitionStep(Span(rows, lo, hi - 1), Own(rows, lo, hi - 1, country), Others(rows, lo, hi - 1, country),
                    rows[hi - 1], rows[hi - 1].country == country);
    }
  }

  lemma Partition(rows: seq<Row>, lo: nat, hi: nat, country: string)
    requires lo <= hi <= |rows|
    ensures multiset(rows[lo..hi]) == multiset(Own(rows, lo, hi, country)) + multiset(Others(rows, lo, hi, country))
  {
    SpanPartition(rows, lo, hi, country);
    SpanIsSlice(rows, lo, hi);
  }

  /** Reordering the clusters reorders the flattened rows. */
  lemma {:induction false} FlattenPermutes(rows: seq<Row>, a: seq<Cluster>, b: seq<Cluster>)
    requires forall c <- a :: c.begin <= c.end <= |rows|
    requires forall c <- b :: c.begin <= c.end <= |rows|
    requires multiset(a) == multiset(b)
    ensures multiset(Flatten(rows, a)) == multiset(Flatten(rows, b))
  {
    if a == [] {
      assert |b| == |multiset(b)| == |multiset(a)|;
    } else {
      assert a[0] in multiset(b);
      var k :| 0 <= k < |b| && b[k] == a[0];
      var rest := b[..k] + b[k + 1..];
      RemoveBoth(a, b, k);
      FlattenPermutes(rows, a[1..], rest);
      FlattenRemove(rows, b, k);
    }
  }

  lemma RemoveBoth(a: seq<Cluster>, b: seq<Cluster>, k: nat)
    requires a != [] && k < |b| && b[k] == a[0] && multiset(a) == multiset(b)
    ensures multiset(a[1..]) == multiset(b[..k] + b[k + 1..])
  {
    assert a == [a[0]] + a[1..] && b == b[..k] + [b[k]] + b[k + 1..];
    assert multiset(a[1..]) == multiset(a) - multiset{a[0]};
    assert multiset(b[..k] + b[k + 1..]) == multiset(b) - multiset{b[k]};
  }

  lemma {:induction false} FlattenRemove(rows: seq<Row>, b: seq<Cluster>, k: nat)
    requires k < |b| && forall c <- b :: c.begin <= c.end <= |rows|
    ensures multiset(Flatten(rows, b))
        == multiset(rows[b[k].begin..b[k].end]) + multiset(Flatten(rows, b[..k] + b[k + 1..]))
  {
    if k == 0 {
      assert b[..0] + b[1..] == b[1..];
    } else {
      var rest := b[..k] + b[k + 1..];
      assert rest[1..] == b[1..][..k - 1] + b[1..][k..];
      FlattenRemove(rows, b[1..], k - 1);
    }
  }

  /** Gathering a country permutes the rows. */
  lemma PassPermutes(rows: seq<Row>, country: string, at: nat, block: seq<Row>)
    requires at <= |rows|
    requires multiset(block) == multiset(Own(rows, 0, |rows|, country))
    ensures multiset(Gathered(rows, country, at, block)) == multiset(rows)
  {
    Split(rows, 0, at, |rows|, country);
    Partition(rows, 0, |rows|, country);
    assert rows[0..|rows|] == rows;
  }

  /** Gathering a country makes it contiguous. */
  lemma PassGathers(rows: seq<Row>, country: string, at: nat, block: seq<Row>)
    requires at <= |rows| && Only(block, country)
    ensures Contiguous(Gathered(rows, country, at, block), country)
  {
    OthersMembers(rows, 0, at, country, country);
    OthersMembers(rows, at, |rows|, country, country);
    Sandwich(Others(rows, 0, at, country), block, Others(rows, at, |rows|, country), country);
  }

  /** The rows that are left of a stretch `lo..hi` keep a country contiguous that was so in the stretch. */
  lemma OthersKeep(rows: seq<Row>, lo: nat, hi: nat, country: string, other: string, i: nat, j: nat)
    returns (a: seq<Row>, b: seq<Row>, c: seq<Row>)
    requires lo <= i <= j <= hi <= |rows|
    requires NoneOf(rows, lo, i, other) && AllOf(rows, i, j, other) && NoneOf(rows, j, hi, other)
    ensures Others(rows, lo, hi, country) == a + b + c
    ensures Free(a, other) && Only(b, other) && Free(c, other)
  {
    a, b, c := Others(rows, lo, i, country), Others(rows, i, j, country), Others(rows, j, hi, country);
    Split(rows, lo, i, hi, country);
    Split(rows, i, j, hi, country);
    OthersMembers(rows, lo, i, country, other);
    OthersMembers(rows, i, j, country, other);
    OthersMembers(rows, j, hi, country, other);
  }

  /** Gathering one country where it already had a row keeps every other contiguous country contiguous. */
  lemma PassKeeps(rows: seq<Row>, country: string, at: nat, block: seq<Row>, other: string)
    requires at < |rows| && rows[at].country == country != other && Only(block, country)
    requires Contiguous(rows, other)
    ensures Contiguous(Gathered(rows, country, at, block), other)
  {
    var i: nat, j: nat :| Block(rows, other, i, j);
    var before, after := Others(rows, 0, at, country), Others(rows, at, |rows|, country);
    if i == j || at < i {
      var a, b, c := OthersKeep(rows, at, |rows|, country, other, Max(i, at), Max(j, at));
      OthersMembers(rows, 0, at, country, other);
      Sandwich(before + block + a, b, c, other);
      assert before + block + a + b + c == before + block + after;
    } else {
      var a, b, c := OthersKeep(rows, 0, at, country, other, i, j);
      OthersMembers(rows, at, |rows|, country, other);
      Sandwich(a, b, c + block + after, other);
      assert a + b + (c + block + after) == before + block + after;
    }
  }

  // ------------------------------------------------------------------ all passes

  ghost predicate Distinct<T>(s: seq<T>) {
    forall i, j | 0 <= i < j < |s| :: s[i] != s[j]
  }

  /** Some row of the one country comes before every row of the other. */
  ghost predicate AppearsBefore(rows: seq<Row>, a: string, b: string) {
    exists k | 0 <= k < |rows| :: rows[k].country == a && NoneOf(rows, 0, k + 1, b)
  }

  ghost predicate ByFirstAppearance(rows: seq<Row>, countries: seq<string>) {
    forall i, j | 0 <= i < j < |countries| :: AppearsBefore(rows, countries[i], countries[j])
  }

  /** The countries of the first `n` rows. */
  ghost predicate CountriesOf(rows: seq<Row>, n: nat, countries: seq<string>)
    requires n <= |rows|
  {
    && (forall k | 0 <= k < n :: rows[k].country in countries)
    && (forall c <- countries :: exists k | 0 <= k < n :: rows[k].country == c)
  }

  /** A country that is new at row `n` appears after all the others. */
  lemma NewAppearsLast(rows: seq<Row>, n: nat, countries: seq<string>)
    requires n < |rows| && CountriesOf(rows, n, countries) && ByFirstAppearance(rows, countries)
    requires rows[n].country !in countries
    ensures ByFirstAppearance(rows, countries + [rows[n].country])
    ensures CountriesOf(rows, n + 1, countries + [rows[n].country])
  {
    var c := rows[n].country;
    forall a <- countries ensures AppearsBefore(rows, a, c) {
      var k :| 0 <= k < n && rows[k].country == a;
      assert NoneOf(rows, 0, k + 1, c);
    }
  }

  /** The countries in the order a JavaScript `Set` iterates: by first appearance. */
  method CollectCountries(rows: seq<Row>) returns (countries: seq<string>)
    ensures Distinct(countries)
    ensures forall c :: c in countries <==> exists r <- rows :: r.country == c
    ensures ByFirstAppearance(rows, countries)
  {
    countries := [];
    for i := 0 to |rows|
      invariant Distinct(countries)
      invariant CountriesOf(rows, i, countries)
      invariant ByFirstAppearance(rows, countries)
    {
      if rows[i].country !in countries {
        NewAppearsLast(rows, i, countries);
        countries := countries + [rows[i].country];
      }
    }
  }

  /** All runs of the country, largest first, and of equal ones the earlier first. */
  ghost predicate Ranked(rows: seq<Row>, country: string, clusters: seq<Cluster>) {
    clusters != [] && AreRuns(rows, country, clusters) && Covered(rows, country, clusters, |rows|)
        && InRank(clusters)
  }

  lemma SameRun(rows: seq<Row>, country: string, c: Cluster, d: Cluster)
    requires IsRun(rows, country, c) && IsRun(rows, country, d) && d.begin <= c.begin < d.end
    ensures c == d
  {
  }

  lemma AlsoRanked(rows: seq<Row>, country: string, a: seq<Cluster>, b: seq<Cluster>, c: Cluster)
    requires Ranked(rows, country, a) && Ranked(rows, country, b) && c in a
    ensures c in b
  {
    assert rows[c.begin].country == country;
    var d :| d in b && d.begin <= c.begin < d.end;
    SameRun(rows, country, c, d);
  }

  lemma NoMembersLeft(a: seq<Cluster>, b: seq<Cluster>)
    requires forall c <- b :: c in a
    ensures a == [] ==> b == []
    ensures b != [] ==> b[0] in a
  {
    if b != [] {
      assert b[0] in b;
    }
  }

  lemma {:induction false} SameRanking(a: seq<Cluster>, b: seq<Cluster>)
    requires InRank(a) && InRank(b) && (forall c <- a :: c in b) && (forall c <- b :: c in a)
    ensures a == b
  {
    NoMembersLeft(a, b);
    NoMembersLeft(b, a);
    if a != [] {
      SameBest(a, b);
      RestIsSame(a, b);
      RestIsSame(b, a);
      SameRanking(a[1..], b[1..]);
    }
  }

  lemma SameBest(a: seq<Cluster>, b: seq<Cluster>)
    requires InRank(a) && InRank(b) && a != [] && b != [] && a[0] in b && b[0] in a
    ensures a[0] == b[0]
  {
    var i :| 0 <= i < |b| && b[i] == a[0];
    var j :| 0 <= j < |a| && a[j] == b[0];
  }

  lemma RestIsSame(a: seq<Cluster>, b: seq<Cluster>)
    requires InRank(a) && a != [] && b != [] && a[0] == b[0] && forall c <- a :: c in b
    ensures forall c <- a[1..] :: c in b[1..]
  {
    forall c <- a[1..] ensures c in b[1..] {
      var i :| 0 <= i < |a[1..]| && a[1..][i] == c;
      assert Outranks(a[0], a[i + 1]) && c in a;
      assert b == [b[0]] + b[1..];
    }
  }

  /** There is one way only to gather a country. */
  lemma GatheringIsUnique(rows: seq<Row>, country: string, one: seq<Row>, other: seq<Row>)
    requires GatheredAtLargest(rows, country, one) && GatheredAtLargest(rows, country, other)
    ensures one == other
  {
    var a: seq<Cluster> :| GatheredAs(rows, country, a, one);
    var b: seq<Cluster> :| GatheredAs(rows, country, b, other);
    forall c <- a ensures c in b {
      AlsoRanked(rows, country, a, b, c);
    }
    forall c <- b ensures c in a {
      AlsoRanked(rows, country, b, a, c);
    }
    SameRanking(a, b);
  }

  /** The country's runs, in rank, stand where the first of them was; nothing else has moved. */
  ghost predicate GatheredAs(rows: seq<Row>, country: string, clusters: seq<Cluster>, newArray: seq<Row>) {
    && Ranked(rows, country, clusters)
    && assert clusters[0] in clusters;
       newArray == Gathered(rows, country, clusters[0].begin, Flatten(rows, clusters))
  }

  ghost predicate GatheredAtLargest(rows: seq<Row>, country: string, newArray: seq<Row>) {
    exists clusters: seq<Cluster> :: GatheredAs(rows, country, clusters, newArray)
  }

  /** One turn of the loop over the countries. */
  method GatherCountry(rows: seq<Row>, country: string) returns (newArray: seq<Row>)
    requires exists r <- rows :: r.country == country
    ensures GatheredAtLargest(rows, country, newArray)
    ensures multiset(newArray) == multiset(rows)
    ensures Contiguous(newArray, country)
    ensures forall other | Contiguous(rows, other) :: Contiguous(newArray, other)
    ensures Others(newArray, 0, |newArray|, country) == Others(rows, 0, |rows|, country)
  {
    var found := FindClusters(rows, country);
    var clusters := SortBySize(found);
    SortedClusters(rows, country, found, clusters);
    SortRanks(found);
    var countryArray := CollectCountry(rows, clusters);
    newArray := Rebuild(rows, country, clusters, countryArray);
    ghost var at := clusters[0].begin;
    FlattenPermutes(rows, found, clusters);
    FlattenMembers(rows, clusters, country);
    PassPermutes(rows, country, at, countryArray);
    PassGathers(rows, country, at, countryArray);
    PassKeepsOrder(rows, country, at, countryArray);
    assert GatheredAs(rows, country, clusters, newArray);
    forall other | Contiguous(rows, other) ensures Contiguous(newArray, other) {
      if other != country {
        PassKeeps(rows, country, at, countryArray, other);
      }
    }
  }

  lemma SortedClusters(rows: seq<Row>, country: string, found: seq<Cluster>, clusters: seq<Cluster>)
    requires AreRuns(rows, country, found) && Covered(rows, country, found, |rows|)
    requires multiset(found) == multiset(clusters)
    requires exists r <- rows :: r.country == country
    ensures clusters != [] && IsRun(rows, country, clusters[0])
    ensures AreRuns(rows, country, clusters) && Covered(rows, country, clusters, |rows|)
  {
    assert forall c :: c in clusters <==> c in multiset(clusters);
    assert forall c :: c in found <==> c in multiset(found);
    var i :| 0 <= i < |rows| && rows[i].country == country;
    assert exists c <- found :: c.begin <= i < c.end;
    assert clusters[0] in clusters;
  }

  /** A pass keeps the order of all other rows. */
  lemma PassKeepsOrder(rows: seq<Row>, country: string, at: nat, block: seq<Row>)
    requires at <= |rows| && Only(block, country)
    ensures var r := Gathered(rows, country, at, block);
            Others(r, 0, |r|, country) == Others(rows, 0, |rows|, country)
  {
    OthersMembers(rows, 0, at, country, country);
    OthersMembers(rows, at, |rows|, country, country);
    OthersOfThree(Others(rows, 0, at, country), block, Others(rows, at, |rows|, country), country);
    Split(rows, 0, at, |rows|, country);
  }

  lemma {:induction false} OthersAppend(a: seq<Row>, b: seq<Row>, country: string)
    ensures Others(a + b, 0, |a + b|, country) == Others(a, 0, |a|, country) + Others(b, 0, |b|, country)
  {
    if b == [] {
      assert a + b == a;
    } else {
      var before, last := b[..|b| - 1], b[|b| - 1];
      OthersAppend(a, before, country);
      OthersLast(a + b, country);
      OthersLast(b, country);
      assert (a + b)[..|a + b| - 1] == a + before;
      assert (a + b)[|a + b| - 1] == last;
    }
  }

  lemma OthersLast(rows: seq<Row>, country: string)
    requires rows != []
    ensures var n := |rows| - 1;
            Others(rows, 0, |rows|, country)
                == Others(rows[..n], 0, n, country) + (if rows[n].country != country then [rows[n]] else [])
  {
    OthersOfPrefix(rows, |rows| - 1, |rows| - 1, country);
  }

  lemma {:induction false} OthersOfPrefix(rows: seq<Row>, n: nat, hi: nat, country: string)
    requires hi <= n <= |rows|
    ensures Others(rows, 0, hi, country) == Others(rows[..n], 0, hi, country)
  {
    if hi > 0 {
      OthersOfPrefix(rows, n, hi - 1, country);
    }
  }

  lemma PureAll(rows: seq<Row>, country: string)
    ensures Only(rows, country) ==> Others(rows, 0, |rows|, country) == []
    ensures Free(rows, country) ==> Others(rows, 0, |rows|, country) == rows
  {
    Pure(rows, 0, |rows|, country);
    assert rows[0..|rows|] == rows;
  }

  lemma OthersOfThree(before: seq<Row>, block: seq<Row>, after: seq<Row>, country: string)
    requires Free(before, country) && Only(block, country) && Free(after, country)
    ensures var r := before + block + after; Others(r, 0, |r|, country) == before + after
  {
    OthersAppend(before + block, after, country);
    OthersAppend(before, block, country);
    PureAll(before, country);
    PureAll(block, country);
    PureAll(after, country);
    assert before + [] == before;
  }

  /** The first `k` countries are contiguous. */
  ghost predicate Settled(rows: seq<Row>, countries: seq<string>, k: nat)
    requires k <= |countries|
  {
    forall i | 0 <= i < k :: Contiguous(rows, countries[i])
  }

  lemma SettleNext(rows: seq<Row>, newArray: seq<Row>, countries: seq<string>, k: nat)
    requires k < |countries| && Settled(rows, countries, k) && Contiguous(newArray, countries[k])
    requires forall other | Contiguous(rows, other) :: Contiguous(newArray, other)
    ensures Settled(newArray, countries, k + 1)
  {
  }

  /** From the first to the last of the stages one country after the other is gathered. */
  ghost predicate Passes(countries: seq<string>, stages: seq<seq<Row>>) {
    && |stages| == |countries| + 1
    && forall k | 0 <= k < |countries| :: GatheredAtLargest(stages[k], countries[k], stages[k + 1])
  }

  /** All countries, in the order in which they appear first, are gathered in turn. */
  ghost predicate GatheredInTurn(rows: seq<Row>, clustered: seq<Row>) {
    exists countries: seq<string>, stages: seq<seq<Row>> ::
      && Distinct(countries) && (forall c :: c in countries <==> exists r <- rows :: r.country == c)
      && ByFirstAppearance(rows, countries) && Passes(countries, stages)
      && stages[0] == rows && stages[|countries|] == clustered
  }

  /** The first `k` countries have been gathered, from `rows` to `clustered`. */
  ghost predicate Gathering(rows: seq<Row>, countries: seq<string>, k: nat, stages: seq<seq<Row>>,
                            clustered: seq<Row>)
  {
    k <= |countries| && Passes(countries[..k], stages) && stages[0] == rows && stages[k] == clustered
  }

  lemma OneMorePass(rows: seq<Row>, countries: seq<string>, k: nat, stages: seq<seq<Row>>, clustered: seq<Row>,
                    next: seq<Row>)
    requires k < |countries| && Gathering(rows, countries, k, stages, clustered)
    requires GatheredAtLargest(clustered, countries[k], next)
    ensures Gathering(rows, countries, k + 1, stages + [next], next)
  {
    var more := stages + [next];
    forall i | 0 <= i < k + 1 ensures GatheredAtLargest(more[i], countries[..k + 1][i], more[i + 1]) {
      if i < k {
        assert GatheredAtLargest(stages[i], countries[..k][i], stages[i + 1]);
      }
    }
  }

  lemma AllGathered(rows: seq<Row>, countries: seq<string>, stages: seq<seq<Row>>, clustered: seq<Row>)
    requires Gathering(rows, countries, |countries|, stages, clustered)
    requires Distinct(countries) && (forall c :: c in countries <==> exists r <- rows :: r.country == c)
    requires ByFirstAppearance(rows, countries)
    ensures GatheredInTurn(rows, clustered)
  {
    assert countries[..|countries|] == countries;
  }

  /**
    The clustering loop: a permutation of its input in which every country is contiguous, made by
    gathering one country after the other.
   */
  method ClusterByCountry(rows: seq<Row>) returns (clustered: seq<Row>)
    ensures multiset(clustered) == multiset(rows)
    ensures forall r <- rows :: Contiguous(clustered, r.country)
    ensures GatheredInTurn(rows, clustered)
  {
    var countries := CollectCountries(rows);
    clustered := rows;
    ghost var stages := [rows];
    for k := 0 to |countries|
      invariant multiset(clustered) == multiset(rows)
      invariant Settled(clustered, countries, k)
      invariant Gathering(rows, countries, k, stages, clustered)
    {
      assert countries[k] in countries;
      SameMembers(clustered, rows, countries[k]);
      var newArray := GatherCountry(clustered, countries[k]);
      SettleNext(clustered, newArray, countries, k);
      OneMorePass(rows, countries, k, stages, clustered, newArray);
      stages := stages + [newArray];
      clustered := newArray;
    }
    AllGathered(rows, countries, stages, clustered);
    AllSettled(clustered, rows, countries);
  }

  lemma AllSettled(clustered: seq<Row>, rows: seq<Row>, countries: seq<string>)
    requires Settled(clustered, countries, |countries|)
    requires forall c :: c in countries <==> exists r <- rows :: r.country == c
    ensures forall r <- rows :: Contiguous(clustered, r.country)
  {
    forall r <- rows ensures Contiguous(clustered, r.country) {
      assert r.country in countries;
    }
  }

  lemma SameMembers(a: seq<Row>, b: seq<Row>, country: string)
    requires multiset(a) == multiset(b)
    ensures (exists r <- a :: r.country == country) <==> (exists r <- b :: r.country == country)
  {
    assert forall r :: r in a <==> r in multiset(a);
    assert forall r :: r in b <==> r in multiset(b);
  }

  // ------------------------------------------------------------------ renumbering from JFK

  const JFK := "JFK"

  /** The rows numbered 100, 200, ... in the order given. */
  ghost function Renumbered(rows: seq<Row>): seq<Row> {
    seq(|rows|, k requires 0 <= k < |rows| => rows[k].(number := 100 * (k + 1)))
  }

  ghost function Rotation<T>(s: seq<T>, at: nat): seq<T>
    requires at <= |s|
  {
    s[at..] + s[..at]
  }

  ghost predicate FirstJfk(rows: seq<Row>, at: nat) {
    at < |rows| && rows[at].code == JFK && forall k | 0 <= k < at :: rows[k].code != JFK
  }

  ghost predicate Ascending(rows: seq<Row>) {
    forall i, j | 0 <= i < j < |rows| :: rows[i].number <= rows[j].number
  }

  /** `Array.sort` with the number comparator: stable, ascending. */
  function SortByNumber(rows: seq<Row>): (sorted: seq<Row>)
    ensures multiset(sorted) == multiset(rows)
  {
    if rows == [] then []
    else
      assert rows == [rows[0]] + rows[1..];
      InsertByNumber(rows[0], SortByNumber(rows[1..]))
  }

  function InsertByNumber(r: Row, sorted: seq<Row>): (result: seq<Row>)
    ensures multiset(result) == multiset([r]) + multiset(sorted)
  {
    if sorted == [] || r.number <= sorted[0].number then [r] + sorted
    else
      assert sorted == [sorted[0]] + sorted[1..];
      [sorted[0]] + InsertByNumber(r, sorted[1..])
  }

  lemma {:induction false} SortAscends(rows: seq<Row>)
    ensures Ascending(SortByNumber(rows))
  {
    if rows != [] {
      SortAscends(rows[1..]);
      InsertAscends(rows[0], SortByNumber(rows[1..]));
    }
  }

  lemma {:induction false} InsertAscends(r: Row, sorted: seq<Row>)
    requires Ascending(sorted)
    ensures Ascending(InsertByNumber(r, sorted))
  {
    if sorted != [] && r.number > sorted[0].number {
      InsertAscends(r, sorted[1..]);
      var rest := InsertByNumber(r, sorted[1..]);
      forall d <- rest ensures d.number >= sorted[0].number {
        assert d in multiset(rest);
        assert d == r || d in sorted[1..];
      }
    }
  }

  /** The rows are numbered `first`, `first + 1`, and so on. */
  ghost predicate CountsUp(rows: seq<Row>, first: nat) {
    forall k | 0 <= k < |rows| :: rows[k].number == first + k
  }

  /** The rows are counted from 1, starting at row `at` and going around. */
  ghost predicate CountsAround(rows: seq<Row>, at: nat) {
    forall k | 0 <= k < |rows| :: rows[k].number == if at <= k then k - at + 1 else |rows| - at + k + 1
  }

  /** Rows numbered one apart are what any sort by number makes of a permutation of them. */
  lemma {:induction false} SortedIsUnique(a: seq<Row>, b: seq<Row>, first: nat)
    requires multiset(a) == multiset(b) && Ascending(a) && CountsUp(b, first)
    ensures a == b
  {
    assert |a| == |multiset(a)| && |b| == |multiset(b)|;
    if a != [] {
      SameHead(a, b, first);
      WithoutHead(a);
      WithoutHead(b);
      SortedIsUnique(a[1..], b[1..], first + 1);
    }
  }

  lemma WithoutHead(s: seq<Row>)
    requires s != []
    ensures multiset(s[1..]) == multiset(s) - multiset{s[0]}
  {
    assert s == [s[0]] + s[1..];
  }

  lemma SameHead(a: seq<Row>, b: seq<Row>, first: nat)
    requires a != [] && b != [] && multiset(a) == multiset(b) && Ascending(a) && CountsUp(b, first)
    ensures a[0] == b[0]
  {
    assert a[0] in multiset(b) && b[0] in multiset(a);
    var i :| 0 <= i < |b| && b[i] == a[0];
    var j :| 0 <= j < |a| && a[j] == b[0];
    assert a[0].number <= a[j].number;
  }

  /** Sorting rows that were counted from `at` onwards, and around, rotates them. */
  lemma SortRotates(rows: seq<Row>, at: nat)
    requires at <= |rows| && CountsAround(rows, at)
    ensures SortByNumber(rows) == Rotation(rows, at)
  {
    SortAscends(rows);
    RotationPermutes(rows, at);
    RotationCounts(rows, at);
    SortedIsUnique(SortByNumber(rows), Rotation(rows, at), 1);
  }

  lemma RotationPermutes<T>(s: seq<T>, at: nat)
    requires at <= |s|
    ensures multiset(Rotation(s, at)) == multiset(s)
  {
    assert s == s[..at] + s[at..];
  }

  lemma RotationCounts(rows: seq<Row>, at: nat)
    requires at <= |rows| && CountsAround(rows, at)
    ensures CountsUp(Rotation(rows, at), 1)
  {
  }

  /**
    Without a JFK row the source writes to index -1, which throws; otherwise the result is the
    rotation that starts at the first JFK row, numbered 100, 200, ..., 100·n.
   */
  method NumberFromJfk(rows: seq<Row>) returns (result: Option<seq<Row>>)
    ensures result.None? <==> forall k | 0 <= k < |rows| :: rows[k].code != "JFK"
    ensures result.Some? ==> exists at :: FirstJfk(rows, at) && result.value == Renumbered(Rotation(rows, at))
    ensures result.Some? ==> |result.value| == |rows| > 0
    ensures result.Some? ==> result.value[0].code == "JFK" && result.value[0].number == 100
  {
    var jfkIndex := -1;
    for i := 0 to |rows|
      invariant jfkIndex == -1
      invariant forall k | 0 <= k < i :: rows[k].code != JFK
    {
      if rows[i].code == JFK {
        jfkIndex := i;
        break;
      }
    }
    if jfkIndex == -1 {
      return None;
    }
    assert FirstJfk(rows, jfkIndex);
    var sorted := NumberFrom(rows, jfkIndex);
    result := Some(sorted);
  }

  /** Counting from the given row, sorting by the count and scaling it. */
  method NumberFrom(rows: seq<Row>, at: nat) returns (sorted: seq<Row>)
    requires at <= |rows|
    ensures sorted == Renumbered(Rotation(rows, at))
  {
    var numbered := CountFrom(rows, at);
    sorted := SortByNumber(numbered);
    SortRotates(numbered, at);
    sorted := Times100(sorted);
    ScaledRotation(rows, numbered, sorted, at);
  }

  lemma ScaledRotation(rows: seq<Row>, numbered: seq<Row>, scaled: seq<Row>, at: nat)
    requires at <= |rows| == |numbered| == |scaled|
    requires forall k | 0 <= k < |rows| ::
               numbered[k] == rows[k].(number := if at <= k then k - at + 1 else |rows| - at + k + 1)
    requires forall k | 0 <= k < |rows| ::
               scaled[k] == Rotation(numbered, at)[k].(number := 100 * Rotation(numbered, at)[k].number)
    ensures scaled == Renumbered(Rotation(rows, at))
  {
    var n := |rows|;
    forall k | 0 <= k < n ensures scaled[k] == Rotation(rows, at)[k].(number := 100 * (k + 1)) {
      var source := if k < n - at then at + k else at + k - n;
      assert Rotation(numbered, at)[k] == numbered[source] && Rotation(rows, at)[k] == rows[source];
    }
  }

  /** The two counting loops: from the given row to the end, then from the start to that row. */
  method CountFrom(rows: seq<Row>, at: nat) returns (numbered: seq<Row>)
    requires at <= |rows|
    ensures |numbered| == |rows|
    ensures forall k | 0 <= k < |rows| ::
              numbered[k] == rows[k].(number := if at <= k then k - at + 1 else |rows| - at + k + 1)
  {
    numbered := rows;
    var counter := 1;
    for i := at to |rows|
      invariant counter == 1 + i - at && |numbered| == |rows|
      invariant forall k | 0 <= k < |rows| ::
          numbered[k] == if at <= k < i then rows[k].(number := k - at + 1) else rows[k]
    {
      numbered := numbered[i := numbered[i].(number := counter)];
      counter := counter + 1;
    }
    for i := 0 to at
      invariant counter == 1 + |rows| - at + i && |numbered| == |rows|
      invariant forall k | at <= k < |rows| :: numbered[k] == rows[k].(number := k - at + 1)
      invariant forall k | 0 <= k < at ::
          numbered[k] == if k < i then rows[k].(number := |rows| - at + k + 1) else rows[k]
    {
      numbered := numbered[i := numbered[i].(number := counter)];
      counter := counter + 1;
    }
  }

  method Times100(rows: seq<Row>) returns (scaled: seq<Row>)
    ensures |scaled| == |rows|
    ensures forall k | 0 <= k < |rows| :: scaled[k] == rows[k].(number := 100 * rows[k].number)
  {
    scaled := rows;
    for i := 0 to |rows|
      invariant |scaled| == |rows|
      invariant forall k | 0 <= k < |rows| ::
          scaled[k] == if k < i then rows[k].(number := 100 * rows[k].number) else rows[k]
    {
      scaled := scaled[i := scaled[i].(number := scaled[i].number * 100)];
    }
  }

  /**
    The rotation keeps every country of the list contiguous, except that it splits the country of
    the row it starts at, unless that row is the first of its country or there is no other country.
   */
  lemma RotationKeepsCountries(rows: seq<Row>, at: nat, country: string, i: nat, j: nat)
    requires at < |rows| && Block(rows, country, i, j) && i < j
    ensures Contiguous(Rotation(rows, at), country) <==> !(i < at < j) || (i == 0 && j == |rows|)
  {
    var r, n := Rotation(rows, at), |rows|;
    if at <= i {
      assert Block(r, country, i - at, j - at);
    } else if j <= at {
      assert Block(r, country, n - at + i, n - at + j);
    } else if i == 0 && j == n {
      assert Block(r, country, 0, n);
    } else {
      var gap := if i > 0 then n - at else n - at - 1;
      assert r[0] == rows[at] && r[n - 1] == rows[at - 1] && r[gap].country != country;
    }
  }

  /** JFK is not the first row of its country: the rotation puts one part of the country first and the other last. */
  lemma JfkSplitsItsCountry() returns (rows: seq<Row>)
    ensures forall r <- rows :: Contiguous(rows, r.country)
    ensures FirstJfk(rows, 1) && !Contiguous(Renumbered(Rotation(rows, 1)), rows[1].country)
  {
    var bos, jfk, lhr := Row("BOS", "", "", 0, "NA", "US"), Row(JFK, "", "", 0, "NA", "US"),
        Row("LHR", "", "", 0, "EU", "GB");
    rows := [bos, jfk, lhr];
    assert Block(rows, "US", 0, 2) && Block(rows, "GB", 2, 3);
    var r := Renumbered(Rotation(rows, 1));
    assert Rotation(rows, 1) == [jfk, lhr, bos];
    assert r[0].country == "US" && r[1].country == "GB" && r[2].country == "US";
  }
}
