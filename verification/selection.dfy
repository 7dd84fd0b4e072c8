/**
  `pick_top_components`: the swing-trade candidates among a sector's leaders.
*/
module Selection {
  import opened Common
  import opened Indicators
  import opened Sorting

  /** The tuple `(ticker, rvol20, ret5, atrpct, ok)` the picker collects. */
  datatype Candidate = Candidate(ticker: string, rvol20: Option<real>, ret5: Option<real>, atrPct: Option<real>, ok: bool)

  /**
    Eligibility: above the SMA20, RVOL20 above 1.2 and ATR% at least 2.
    A NaN fails every comparison. The 5-bar return plays no part.
  */
  predicate SwingOk(m: Snapshot)
  {
    m.above20
    && m.rvol20.Some? && m.rvol20.value > 1.2
    && m.atrPct.Some? && m.atrPct.value >= 2.0
  }

  function CandidateOf(ticker: string, m: Snapshot): Candidate
  {
    Candidate(ticker, m.rvol20, m.ret5, m.atrPct, SwingOk(m))
  }

  /** The sort key `(atrpct, rvol20, ret5)`. */
  function CandidateKey(c: Candidate): Key
  {
    [c.atrPct, c.rvol20, c.ret5]
  }

  /**
    The rows collected by the loop over the component map: one per leader that
    has a snapshot, in leader order; leaders without one are skipped.
  */
  function CandidateRows(comp: seq<(string, Option<Snapshot>)>): (rows: seq<Candidate>)
    ensures |rows| <= |comp|
    ensures forall c :: c in rows <==>
      exists i :: 0 <= i < |comp| && comp[i].1.Some? && c == CandidateOf(comp[i].0, comp[i].1.value)
  {
    if comp == [] then []
    else
      var init := comp[..|comp| - 1];
      var last := comp[|comp| - 1];
      var rows := CandidateRows(init);
      assert forall i :: 0 <= i < |init| ==> init[i] == comp[i];
      if last.1.None? then rows else rows + [CandidateOf(last.0, last.1.value)]
  }

  /** `good = [r for r in rows if r[4]]`. */
  function Swingy(rows: seq<Candidate>): (good: seq<Candidate>)
    ensures |good| <= |rows|
    ensures forall c :: c in good <==> c in rows && c.ok
    ensures IsSubsequence(good, rows)
  {
    if rows == [] then []
    else if rows[0].ok then
      var rest := Swingy(rows[1..]);
      assert ([rows[0]] + rest)[1..] == rest;
      [rows[0]] + rest
    else Swingy(rows[1..])
  }

  /** Keeping the eligible rows of a descending list leaves it descending. */
  lemma {:induction false} SwingySorted(rows: seq<Candidate>)
    requires SortedDesc(rows, CandidateKey)
    ensures SortedDesc(Swingy(rows), CandidateKey)
  {
    if rows != [] {
      TailSortedDesc(rows, CandidateKey);
      SwingySorted(rows[1..]);
      if rows[0].ok {
        ConsSortedDesc(rows[0], Swingy(rows[1..]), CandidateKey);
      }
    }
  }

  /** `ranked` is the collected rows sorted by descending key. */
  ghost predicate IsRanking(comp: seq<(string, Option<Snapshot>)>, ranked: seq<Candidate>)
  {
    multiset(ranked) == multiset(CandidateRows(comp)) && SortedDesc(ranked, CandidateKey)
  }

  /** `good` is the first `n` eligible rows of some descending ranking of the leaders. */
  ghost predicate IsBestPick(comp: seq<(string, Option<Snapshot>)>, n: nat, good: seq<Candidate>)
  {
    exists ranked :: IsRanking(comp, ranked) && good == Take(Swingy(ranked), n)
  }

  /**
    `pick_top_components(metrics_map, n)`: collects a row per leader with a
    snapshot, sorts the rows by `(atrpct, rvol20, ret5)` descending, and returns
    the first `n` eligible rows and the first `n` rows overall.
  */
  method PickTopComponents(comp: seq<(string, Option<Snapshot>)>, n: nat)
    returns (good: seq<Candidate>, top: seq<Candidate>, ghost ranked: seq<Candidate>)
    ensures IsRanking(comp, ranked)
    ensures good == Take(Swingy(ranked), n)
    ensures top == Take(ranked, n)
    ensures IsBestPick(comp, n, good)
  {
    var rows: seq<Candidate> := [];
    for i := 0 to |comp|
      invariant rows == CandidateRows(comp[..i])
    {
      assert comp[..i + 1][..i] == comp[..i];
      if comp[i].1.Some? {
        rows := rows + [CandidateOf(comp[i].0, comp[i].1.value)];
      }
    }
    assert comp[..|comp|] == comp;
    var sorted := SortDescending(rows, CandidateKey);
    ranked := sorted;
    good := Take(Swingy(sorted), n);
    top := Take(sorted, n);
  }

  /** An eligible row that did not make the cut ranks no higher than any row that did. */
  lemma PassedOverRanksLower(ranked: seq<Candidate>, n: nat, c: Candidate, g: Candidate)
    requires SortedDesc(ranked, CandidateKey)
    requires c in ranked && c.ok && c !in Take(Swingy(ranked), n)
    requires g in Take(Swingy(ranked), n)
    ensures !KeyLess(CandidateKey(g), CandidateKey(c))
  {
    var sw := Swingy(ranked);
    var good := Take(sw, n);
    SwingySorted(ranked);
    assert c in sw;
    var k :| 0 <= k < |sw| && sw[k] == c;
    var i :| 0 <= i < |good| && good[i] == g;
    assert good[i] == sw[i];
    assert k >= |good|;
    assert 0 <= i < k < |sw|;
    assert !KeyLess(CandidateKey(sw[i]), CandidateKey(sw[k]));
  }

  /**
    What every pick satisfies: at most `n` candidates, each eligible and taken
    from a leader that has a snapshot, in descending key order; every eligible
    leader left out ranks no higher than any candidate picked, and when fewer
    than `n` are picked no eligible leader is left out.
  */
  lemma PickFacts(comp: seq<(string, Option<Snapshot>)>, n: nat, good: seq<Candidate>)
    requires IsBestPick(comp, n, good)
    ensures |good| <= n
    ensures SortedDesc(good, CandidateKey)
    ensures forall c :: c in good ==> c.ok && c.atrPct.Some? && c.atrPct.value >= 2.0
                                      && c.rvol20.Some? && c.rvol20.value > 1.2
    ensures forall c :: c in good ==>
      exists i :: 0 <= i < |comp| && comp[i].1.Some? && c == CandidateOf(comp[i].0, comp[i].1.value)
    ensures forall c, g :: c in CandidateRows(comp) && c.ok && c !in good && g in good ==>
      !KeyLess(CandidateKey(g), CandidateKey(c))
    ensures |good| < n ==> forall c :: c in CandidateRows(comp) && c.ok ==> c in good
  {
    var ranked :| IsRanking(comp, ranked) && good == Take(Swingy(ranked), n);
    RankedPick(ranked, n);
    assert forall c :: c in ranked <==> c in CandidateRows(comp) by {
      forall c ensures c in ranked <==> c in CandidateRows(comp) {
        assert c in ranked <==> c in multiset(ranked);
      }
    }
  }

  /** The pick facts for one descending ranking of the rows. */
  lemma RankedPick(ranked: seq<Candidate>, n: nat)
    requires SortedDesc(ranked, CandidateKey)
    ensures |Take(Swingy(ranked), n)| <= n
    ensures SortedDesc(Take(Swingy(ranked), n), CandidateKey)
    ensures forall c :: c in Take(Swingy(ranked), n) ==> c in ranked && c.ok
    ensures forall c, g :: c in ranked && c.ok && c !in Take(Swingy(ranked), n) && g in Take(Swingy(ranked), n) ==>
      !KeyLess(CandidateKey(g), CandidateKey(c))
    ensures |Take(Swingy(ranked), n)| < n ==> forall c :: c in ranked && c.ok ==> c in Take(Swingy(ranked), n)
  {
    var sw := Swingy(ranked);
    SwingySorted(ranked);
    TakeSorted(sw, n, CandidateKey);
    forall c | c in Take(sw, n) ensures c in sw {
      var k :| 0 <= k < |Take(sw, n)| && Take(sw, n)[k] == c;
      assert sw[k] == c;
    }
    forall c, g | c in ranked && c.ok && c !in Take(sw, n) && g in Take(sw, n)
      ensures !KeyLess(CandidateKey(g), CandidateKey(c))
    {
      PassedOverRanksLower(ranked, n, c, g);
    }
  }

  /** Every picked candidate is an eligible collected row. */
  lemma PickedAreEligibleRows(comp: seq<(string, Option<Snapshot>)>, n: nat, good: seq<Candidate>)
    requires IsBestPick(comp, n, good)
    ensures |good| <= n
    ensures forall c :: c in good ==> c in CandidateRows(comp) && c.ok
  {
    var ranked :| IsRanking(comp, ranked) && good == Take(Swingy(ranked), n);
    forall c | c in good
      ensures c in CandidateRows(comp) && c.ok
    {
      assert c in Swingy(ranked);
      assert c in multiset(ranked);
    }
  }

  /** Every picked candidate is the row of a leader with a snapshot that passes the swing filter. */
  lemma PickedFromLeaders(comp: seq<(string, Option<Snapshot>)>, n: nat, good: seq<Candidate>)
    requires IsBestPick(comp, n, good)
    ensures |good| <= n
    ensures forall k :: 0 <= k < |good| ==>
      exists i :: 0 <= i < |comp| && comp[i].1.Some? && good[k].ticker == comp[i].0 && SwingOk(comp[i].1.value)
  {
    PickedAreEligibleRows(comp, n, good);
    forall k | 0 <= k < |good|
      ensures exists i :: 0 <= i < |comp| && comp[i].1.Some? && good[k].ticker == comp[i].0 && SwingOk(comp[i].1.value)
    {
      assert good[k] in good;
      var i :| 0 <= i < |comp| && comp[i].1.Some? && good[k] == CandidateOf(comp[i].0, comp[i].1.value);
    }
  }

  /** A sector without leaders has no candidates. */
  lemma NoLeadersNoCandidates(n: nat, good: seq<Candidate>)
    requires IsBestPick([], n, good)
    ensures good == []
  {
    var ranked :| IsRanking([], ranked) && good == Take(Swingy(ranked), n);
    assert |ranked| == |multiset(ranked)|;
  }
}
