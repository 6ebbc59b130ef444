/** The cheapest combination of a metrics and a logs offer: `calcForSection` and `renderTotal` of
    obs-advisor/index.html. */
module TotalView {
  import opened Collections
  import opened Sorting

  datatype Offer = Offer(instrument: string, total: real)

  datatype Combo = Combo(metrics: Option<Offer>, logs: Option<Offer>, total: real)

  const OfferTotal: Offer -> real := (o: Offer) => o.total

  const ComboTotal: Combo -> real := (c: Combo) => c.total

  /** Combination number k, in the order in which the page builds them: an empty section adds nothing, and
      otherwise the logs offers run fastest. */
  ghost predicate IsCombo(metrics: seq<Offer>, logs: seq<Offer>, k: nat, c: Combo) {
    if |metrics| == 0 then k < |logs| && c == Combo(None, Some(logs[k]), logs[k].total)
    else if |logs| == 0 then k < |metrics| && c == Combo(Some(metrics[k]), None, metrics[k].total)
    else
      k / |logs| < |metrics| &&
      var a, l := metrics[k / |logs|], logs[k % |logs|];
      c == Combo(Some(a), Some(l), a.total + l.total)
  }

  /** All combinations in that order, none left out and none twice. */
  ghost predicate AreCombos(metrics: seq<Offer>, logs: seq<Offer>, combos: seq<Combo>) {
    && |combos| == (if |metrics| == 0 then |logs| else if |logs| == 0 then |metrics| else |metrics| * |logs|)
    && forall k :: 0 <= k < |combos| ==> IsCombo(metrics, logs, k, combos[k])
  }

  method PushCombos(metrics: seq<Offer>, logs: seq<Offer>) returns (combos: seq<Combo>)
    ensures AreCombos(metrics, logs, combos)
  {
    combos := [];
    if |metrics| == 0 {
      for j := 0 to |logs|
        invariant |combos| == j && forall k :: 0 <= k < j ==> IsCombo(metrics, logs, k, combos[k])
      {
        combos := combos + [Combo(None, Some(logs[j]), logs[j].total)];
      }
    } else if |logs| == 0 {
      for i := 0 to |metrics|
        invariant |combos| == i && forall k :: 0 <= k < i ==> IsCombo(metrics, logs, k, combos[k])
      {
        combos := combos + [Combo(Some(metrics[i]), None, metrics[i].total)];
      }
    } else {
      for i := 0 to |metrics|
        invariant |combos| == i * |logs|
        invariant forall k :: 0 <= k < |combos| ==> IsCombo(metrics, logs, k, combos[k])
      {
        for j := 0 to |logs|
          invariant |combos| == i * |logs| + j
          invariant forall k :: 0 <= k < |combos| ==> IsCombo(metrics, logs, k, combos[k])
        {
          PlaceOf(i, j, |logs|);
          var a, l := metrics[i], logs[j];
          combos := combos + [Combo(Some(a), Some(l), a.total + l.total)];
        }
        assert (i + 1) * |logs| == i * |logs| + |logs|;
      }
    }
  }

  lemma PlaceOf(i: nat, j: nat, n: nat)
    requires j < n
    ensures (i * n + j) / n == i && (i * n + j) % n == j
  {
    var k := i * n + j;
    var q := k / n;
    assert k == q * n + k % n;
    if q < i {
      MultiplyLeast(q + 1, i, n);
    } else if q > i {
      MultiplyLeast(i + 1, q, n);
    }
  }

  lemma MultiplyLeast(a: nat, c: nat, b: nat)
    requires a <= c
    ensures a * b <= c * b
  {
  }

  /** What a combination costs and where its offers come from. */
  ghost predicate Offered(metrics: seq<Offer>, logs: seq<Offer>, c: Combo) {
    && (c.metrics.Some? <==> |metrics| > 0) && (c.metrics.Some? ==> c.metrics.value in metrics)
    && (c.logs.Some? <==> |logs| > 0) && (c.logs.Some? ==> c.logs.value in logs)
    && (c.metrics.Some? || c.logs.Some?)
    && c.total == (if c.metrics.Some? then c.metrics.value.total else 0.0)
      + (if c.logs.Some? then c.logs.value.total else 0.0)
  }

  lemma ComboOffered(metrics: seq<Offer>, logs: seq<Offer>, combos: seq<Combo>, k: nat)
    requires AreCombos(metrics, logs, combos) && k < |combos|
    ensures Offered(metrics, logs, combos[k])
  {
    assert IsCombo(metrics, logs, k, combos[k]);
  }

  /** Every offered combination is there. */
  lemma OfferedCombo(metrics: seq<Offer>, logs: seq<Offer>, combos: seq<Combo>, c: Combo)
    requires AreCombos(metrics, logs, combos) && Offered(metrics, logs, c)
    ensures c in combos
  {
    if |metrics| == 0 {
      var j :| 0 <= j < |logs| && logs[j] == c.logs.value;
      assert IsCombo(metrics, logs, j, combos[j]);
    } else if |logs| == 0 {
      var i :| 0 <= i < |metrics| && metrics[i] == c.metrics.value;
      assert IsCombo(metrics, logs, i, combos[i]);
    } else {
      var i :| 0 <= i < |metrics| && metrics[i] == c.metrics.value;
      var j :| 0 <= j < |logs| && logs[j] == c.logs.value;
      PlaceOf(i, j, |logs|);
      MultiplyLeast(i + 1, |metrics|, |logs|);
      assert (i + 1) * |logs| == i * |logs| + |logs|;
      assert IsCombo(metrics, logs, i * |logs| + j, combos[i * |logs| + j]);
    }
  }

  lemma CombosAre(metrics: seq<Offer>, logs: seq<Offer>, pushed: seq<Combo>)
    requires AreCombos(metrics, logs, pushed)
    ensures forall c :: c in pushed <==> Offered(metrics, logs, c)
  {
    hide AreCombos, Offered;
    forall c ensures c in pushed <==> Offered(metrics, logs, c) {
      if c in pushed {
        var k :| 0 <= k < |pushed| && pushed[k] == c;
        ComboOffered(metrics, logs, pushed, k);
      }
      if Offered(metrics, logs, c) {
        OfferedCombo(metrics, logs, pushed, c);
      }
    }
  }

  /** The total of the first offer of an ordered section; an empty section adds nothing. */
  function Least(offers: seq<Offer>): real {
    if |offers| > 0 then offers[0].total else 0.0
  }

  /** The table holds the combinations, stably ordered by total, and, the sections being ordered, its first row
      costs the sum of the two section minima. */
  method RenderTotal(metrics: seq<Offer>, logs: seq<Offer>) returns (combos: seq<Combo>)
    requires Ordered(OfferTotal, metrics) && Ordered(OfferTotal, logs)
    ensures exists pushed :: AreCombos(metrics, logs, pushed) && combos == Sorted(ComboTotal, pushed)
    ensures forall i, j :: 0 <= i < j < |combos| ==> combos[i].total <= combos[j].total
    ensures forall c :: c in combos <==> Offered(metrics, logs, c)
    ensures |combos| == 0 <==> |metrics| == 0 && |logs| == 0
    ensures |combos| > 0 ==> combos[0].total == Least(metrics) + Least(logs)
  {
    var pushed := PushCombos(metrics, logs);
    combos := Sorted(ComboTotal, pushed);
    SortedSorts(ComboTotal, pushed);
    PermutationLength(combos, pushed);
    CombosAre(metrics, logs, pushed);
    assert forall i, j :: 0 <= i < j < |combos| ==> ComboTotal(combos[i]) <= ComboTotal(combos[j]);
    hide AreCombos, Offered;
    CheapestFirst(metrics, logs, combos);
  }

  lemma CheapestFirst(metrics: seq<Offer>, logs: seq<Offer>, combos: seq<Combo>)
    requires Ordered(OfferTotal, metrics) && Ordered(OfferTotal, logs) && Ordered(ComboTotal, combos)
    requires forall c :: c in combos <==> Offered(metrics, logs, c)
    ensures |combos| == 0 <==> |metrics| == 0 && |logs| == 0
    ensures |combos| > 0 ==> combos[0].total == Least(metrics) + Least(logs)
  {
    assert |combos| > 0 ==> combos[0] in combos;
    if |metrics| > 0 || |logs| > 0 {
      var best := Best(metrics, logs);
      var k :| 0 <= k < |combos| && combos[k] == best;
      assert ComboTotal(combos[0]) <= ComboTotal(combos[k]);
      NoCheaper(metrics, logs, combos[0]);
    }
  }

  /** The first offers of the sections. */
  ghost function Best(metrics: seq<Offer>, logs: seq<Offer>): (c: Combo)
    requires |metrics| > 0 || |logs| > 0
    ensures Offered(metrics, logs, c) && c.total == Least(metrics) + Least(logs)
  {
    if |metrics| == 0 then Combo(None, Some(logs[0]), logs[0].total)
    else if |logs| == 0 then Combo(Some(metrics[0]), None, metrics[0].total)
    else Combo(Some(metrics[0]), Some(logs[0]), metrics[0].total + logs[0].total)
  }

  lemma NoCheaper(metrics: seq<Offer>, logs: seq<Offer>, c: Combo)
    requires Ordered(OfferTotal, metrics) && Ordered(OfferTotal, logs) && Offered(metrics, logs, c)
    ensures Least(metrics) + Least(logs) <= c.total
  {
    forall a | a in metrics ensures metrics[0].total <= a.total { FirstLeast(metrics, a); }
    forall l | l in logs ensures logs[0].total <= l.total { FirstLeast(logs, l); }
  }

  lemma FirstLeast(s: seq<Offer>, o: Offer)
    requires Ordered(OfferTotal, s) && o in s
    ensures s[0].total <= o.total
  {
    var i :| 0 <= i < |s| && s[i] == o;
    assert OfferTotal(s[0]) <= OfferTotal(s[i]);
  }

  /** The rows of one section, cheapest first. */
  method CalcForSection(offers: seq<Offer>) returns (rows: seq<Offer>)
    ensures IsSorting(OfferTotal, rows, offers) && rows == Sorted(OfferTotal, offers)
  {
    rows := Sorted(OfferTotal, offers);
    SortedSorts(OfferTotal, offers);
  }

  /** The highlighted combination is one the offers allow, and none they allow is cheaper. */
  method RenderAll(metrics: seq<Offer>, logs: seq<Offer>) returns (combos: seq<Combo>)
    ensures forall c :: c in combos <==> Offered(metrics, logs, c)
    ensures forall c :: Offered(metrics, logs, c) ==> |combos| > 0 && combos[0].total <= c.total
    ensures exists pushed ::
      && AreCombos(Sorted(OfferTotal, metrics), Sorted(OfferTotal, logs), pushed)
      && combos == Sorted(ComboTotal, pushed)
  {
    hide AreCombos;
    var a := CalcForSection(metrics);
    var b := CalcForSection(logs);
    combos := RenderTotal(a, b);
    forall c ensures Offered(a, b, c) <==> Offered(metrics, logs, c) {
      PermutationLength(a, metrics);
      PermutationLength(b, logs);
    }
    forall c | Offered(metrics, logs, c) ensures |combos| > 0 && combos[0].total <= c.total {
      assert c in combos;
      var k :| 0 <= k < |combos| && combos[k] == c;
      assert ComboTotal(combos[0]) <= ComboTotal(combos[k]);
    }
  }
}
