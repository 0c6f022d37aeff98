/**
 * The "Maiores Notificantes" card of the quality view (`topSectors` in
 * components/QualityDashboard.tsx): a loop tallies notifications per notified sector in
 * an insertion-ordered dictionary, the entries are stably sorted by count, descending,
 * and the first three are kept.
 */
module TopSectors {
  import opened Types
  import opened SeqUtil

  /** One dictionary entry `[sector, count]`. */
  datatype SectorCount = SectorCount(sector: string, count: nat)

  /** The number of notifications whose notified sector is `s`. */
  function SectorVolume(ns: seq<Notification>, s: string): nat {
    if ns == [] then 0
    else SectorVolume(ns[..|ns| - 1], s) + (if ns[|ns| - 1].notifiedSector == s then 1 else 0)
  }

  /** The notified sectors that occur in `ns`. */
  function SectorsOf(ns: seq<Notification>): set<string> {
    set n | n in ns :: n.notifiedSector
  }

  /** Index of the first notification of sector `s`, or `|ns|` when there is none. */
  function FirstSeen(ns: seq<Notification>, s: string): (r: nat)
    ensures r <= |ns|
    ensures r < |ns| ==> ns[r].notifiedSector == s
    ensures forall j :: 0 <= j < r ==> ns[j].notifiedSector != s
  {
    if ns == [] then 0
    else if ns[0].notifiedSector == s then 0
    else 1 + FirstSeen(ns[1..], s)
  }

  predicate HasSector(t: seq<SectorCount>, s: string) {
    exists i :: 0 <= i < |t| && t[i].sector == s
  }

  /** Each sector has at most one entry, as in a dictionary. */
  predicate DistinctSectors(t: seq<SectorCount>) {
    forall i, j :: 0 <= i < j < |t| ==> t[i].sector != t[j].sector
  }

  /**
   * One tally step on the dictionary: an existing entry is incremented in place, a new
   * key is appended at the end with count one.
   */
  function Bump(t: seq<SectorCount>, s: string): (r: seq<SectorCount>)
    requires DistinctSectors(t)
    ensures HasSector(t, s) ==>
              |r| == |t| &&
              forall i :: 0 <= i < |t| ==>
                r[i].sector == t[i].sector &&
                r[i].count == t[i].count + (if t[i].sector == s then 1 else 0)
    ensures !HasSector(t, s) ==> r == t + [SectorCount(s, 1)]
  {
    if t == [] then [SectorCount(s, 1)]
    else if t[0].sector == s then [t[0].(count := t[0].count + 1)] + t[1..]
    else
      assert HasSector(t, s) <==> HasSector(t[1..], s) by {
        if HasSector(t, s) {
          var i :| 0 <= i < |t| && t[i].sector == s;
          assert t[1..][i - 1].sector == s;
        }
        if HasSector(t[1..], s) {
          var i :| 0 <= i < |t[1..]| && t[1..][i].sector == s;
          assert t[i + 1].sector == s;
        }
      }
      [t[0]] + Bump(t[1..], s)
  }

  /**
   * `t` is the dictionary after tallying `ns`: one entry per sector that occurs, holding
   * its volume, in the order in which the sectors were first seen.
   */
  ghost predicate Tallied(t: seq<SectorCount>, ns: seq<Notification>) {
    && (forall i :: 0 <= i < |t| ==> t[i].count == SectorVolume(ns, t[i].sector))
    && (forall s :: HasSector(t, s) <==> s in SectorsOf(ns))
    && (forall i, j :: 0 <= i < j < |t| ==> FirstSeen(ns, t[i].sector) < FirstSeen(ns, t[j].sector))
  }

  lemma VolumeAppend(ns: seq<Notification>, n: Notification, s: string)
    ensures SectorVolume(ns + [n], s) == SectorVolume(ns, s) + (if n.notifiedSector == s then 1 else 0)
  {
    assert (ns + [n])[..|ns|] == ns;
  }

  lemma {:induction false} VolumeOfAbsent(ns: seq<Notification>, s: string)
    requires s !in SectorsOf(ns)
    ensures SectorVolume(ns, s) == 0
  {
    if ns != [] {
      var init := ns[..|ns| - 1];
      assert SectorsOf(init) <= SectorsOf(ns) by {
        forall x | x in SectorsOf(init) ensures x in SectorsOf(ns) {
          var m :| m in init && m.notifiedSector == x;
          assert m in ns;
        }
      }
      VolumeOfAbsent(init, s);
      assert ns[|ns| - 1] in ns;
    }
  }

  lemma FirstSeenPresent(ns: seq<Notification>, s: string)
    ensures FirstSeen(ns, s) < |ns| <==> s in SectorsOf(ns)
  {
    if s in SectorsOf(ns) {
      var m :| m in ns && m.notifiedSector == s;
      var k :| 0 <= k < |ns| && ns[k] == m;
      assert FirstSeen(ns, s) <= k;
    }
  }

  lemma {:induction false} FirstSeenAppend(ns: seq<Notification>, n: Notification, s: string)
    ensures FirstSeen(ns, s) < |ns| ==> FirstSeen(ns + [n], s) == FirstSeen(ns, s)
    ensures FirstSeen(ns, s) == |ns| && n.notifiedSector == s ==> FirstSeen(ns + [n], s) == |ns|
  {
    if ns != [] {
      assert (ns + [n])[1..] == ns[1..] + [n];
      FirstSeenAppend(ns[1..], n, s);
    }
  }

  /** What appending one notification does to the sectors, volumes and first sightings. */
  lemma AppendFacts(t: seq<SectorCount>, ns: seq<Notification>, n: Notification)
    requires Tallied(t, ns)
    ensures SectorsOf(ns + [n]) == SectorsOf(ns) + {n.notifiedSector}
    ensures forall x :: SectorVolume(ns + [n], x) ==
                        SectorVolume(ns, x) + (if n.notifiedSector == x then 1 else 0)
    ensures forall i :: 0 <= i < |t| ==>
              FirstSeen(ns + [n], t[i].sector) == FirstSeen(ns, t[i].sector) < |ns|
  {
    var ns' := ns + [n];
    forall x ensures x in SectorsOf(ns') <==> x in SectorsOf(ns) + {n.notifiedSector} {
      if x in SectorsOf(ns') {
        var m :| m in ns' && m.notifiedSector == x;
        if m != n { assert m in ns; }
      }
      if x in SectorsOf(ns) {
        var m :| m in ns && m.notifiedSector == x;
        assert m in ns';
      }
      assert n in ns';
    }
    forall x ensures SectorVolume(ns', x) == SectorVolume(ns, x) + (if n.notifiedSector == x then 1 else 0) {
      VolumeAppend(ns, n, x);
    }
    forall i | 0 <= i < |t| ensures FirstSeen(ns', t[i].sector) == FirstSeen(ns, t[i].sector) < |ns| {
      assert HasSector(t, t[i].sector);
      FirstSeenPresent(ns, t[i].sector);
      FirstSeenAppend(ns, n, t[i].sector);
    }
  }

  /** Tallying a notification of a sector already in the dictionary. */
  lemma TallyStepKnown(t: seq<SectorCount>, ns: seq<Notification>, n: Notification)
    requires Tallied(t, ns) && DistinctSectors(t) && HasSector(t, n.notifiedSector)
    ensures Tallied(Bump(t, n.notifiedSector), ns + [n])
  {
    var r := Bump(t, n.notifiedSector);
    AppendFacts(t, ns, n);
    forall x ensures HasSector(r, x) <==> HasSector(t, x) {
      if HasSector(r, x) {
        var i :| 0 <= i < |r| && r[i].sector == x;
        assert t[i].sector == x;
      }
      if HasSector(t, x) {
        var i :| 0 <= i < |t| && t[i].sector == x;
        assert r[i].sector == x;
      }
    }
  }

  /** Tallying a notification of a sector not yet in the dictionary. */
  lemma TallyStepNew(t: seq<SectorCount>, ns: seq<Notification>, n: Notification)
    requires Tallied(t, ns) && DistinctSectors(t) && !HasSector(t, n.notifiedSector)
    ensures Tallied(Bump(t, n.notifiedSector), ns + [n])
  {
    var s := n.notifiedSector;
    var r := Bump(t, s);
    AppendFacts(t, ns, n);
    assert s !in SectorsOf(ns);
    VolumeOfAbsent(ns, s);
    FirstSeenPresent(ns, s);
    FirstSeenAppend(ns, n, s);
    assert r[|t|] == SectorCount(s, 1);
    forall x ensures HasSector(r, x) <==> HasSector(t, x) || x == s {
      if HasSector(r, x) && x != s {
        var i :| 0 <= i < |r| && r[i].sector == x;
        assert t[i].sector == x;
      }
      if HasSector(t, x) {
        var i :| 0 <= i < |t| && t[i].sector == x;
        assert r[i].sector == x;
      }
    }
  }

  /** Tallying one more notification keeps the dictionary tallied. */
  lemma TallyStep(t: seq<SectorCount>, ns: seq<Notification>, n: Notification)
    requires Tallied(t, ns)
    ensures DistinctSectors(t)
    ensures Tallied(Bump(t, n.notifiedSector), ns + [n])
  {
    if HasSector(t, n.notifiedSector) {
      TallyStepKnown(t, ns, n);
    } else {
      TallyStepNew(t, ns, n);
    }
  }

  /** `a` sorts before `b`: a larger count, or the same count and a sector seen earlier. */
  predicate Ahead(ns: seq<Notification>, a: SectorCount, b: SectorCount) {
    a.count > b.count || (a.count == b.count && FirstSeen(ns, a.sector) < FirstSeen(ns, b.sector))
  }

  /** Every entry is ahead of every later one. */
  ghost predicate Ranked(ns: seq<Notification>, s: seq<SectorCount>) {
    forall i, j :: 0 <= i < j < |s| ==> Ahead(ns, s[i], s[j])
  }

  /** Places `e` before the first entry whose count does not exceed its own. */
  function InsertByCount(e: SectorCount, s: seq<SectorCount>): (r: seq<SectorCount>)
    ensures multiset(r) == multiset(s) + multiset{e}
  {
    if s == [] then [e]
    else if s[0].count > e.count then
      assert s == [s[0]] + s[1..];
      [s[0]] + InsertByCount(e, s[1..])
    else [e] + s
  }

  /**
   * The ranking step: a stable sort of the entries by count, descending, written as an
   * insertion sort that keeps earlier entries ahead of later entries with the same count.
   */
  function SortByCount(t: seq<SectorCount>): (r: seq<SectorCount>)
    ensures multiset(r) == multiset(t)
  {
    if t == [] then []
    else
      assert t == [t[0]] + t[1..];
      InsertByCount(t[0], SortByCount(t[1..]))
  }

  /** Prepending an entry that is ahead of every entry of a ranked sequence keeps it ranked. */
  lemma RankedCons(ns: seq<Notification>, x: SectorCount, s: seq<SectorCount>)
    requires Ranked(ns, s)
    requires forall j :: 0 <= j < |s| ==> Ahead(ns, x, s[j])
    ensures Ranked(ns, [x] + s)
  {
    var r := [x] + s;
    forall i, j | 0 <= i < j < |r| ensures Ahead(ns, r[i], r[j]) {
      assert r[j] == s[j - 1];
      if i > 0 {
        assert r[i] == s[i - 1];
      }
    }
  }

  lemma {:induction false} InsertRanked(ns: seq<Notification>, e: SectorCount, s: seq<SectorCount>)
    requires Ranked(ns, s)
    requires forall x :: x in s ==> FirstSeen(ns, e.sector) < FirstSeen(ns, x.sector)
    ensures Ranked(ns, InsertByCount(e, s))
  {
    if s == [] {
    } else if s[0].count > e.count {
      var rest := s[1..];
      var tail := InsertByCount(e, rest);
      assert Ranked(ns, rest) by {
        forall i, j | 0 <= i < j < |rest| ensures Ahead(ns, rest[i], rest[j]) {
          assert rest[i] == s[i + 1] && rest[j] == s[j + 1];
        }
      }
      assert forall x :: x in rest ==> x in s;
      InsertRanked(ns, e, rest);
      forall j | 0 <= j < |tail| ensures Ahead(ns, s[0], tail[j]) {
        assert tail[j] in multiset(tail);
        if tail[j] != e {
          assert tail[j] in multiset(rest);
          var k :| 0 <= k < |rest| && rest[k] == tail[j];
          assert s[k + 1] == tail[j];
        }
      }
      RankedCons(ns, s[0], tail);
    } else {
      forall j | 0 <= j < |s| ensures Ahead(ns, e, s[j]) {
        if j > 0 {
          assert Ahead(ns, s[0], s[j]);
        }
        assert s[j] in s;
      }
      RankedCons(ns, e, s);
    }
  }

  /** Sorting entries listed in first-seen order ranks them by count, then by first sighting. */
  lemma {:induction false} SortRanked(ns: seq<Notification>, t: seq<SectorCount>)
    requires forall i, j :: 0 <= i < j < |t| ==> FirstSeen(ns, t[i].sector) < FirstSeen(ns, t[j].sector)
    ensures Ranked(ns, SortByCount(t))
  {
    if t != [] {
      var rest := t[1..];
      SortRanked(ns, rest);
      var sorted := SortByCount(rest);
      forall x | x in sorted ensures FirstSeen(ns, t[0].sector) < FirstSeen(ns, x.sector) {
        assert x in multiset(sorted);
        assert x in multiset(rest);
        var k :| 0 <= k < |rest| && rest[k] == x;
        assert t[k + 1] == x;
      }
      InsertRanked(ns, t[0], sorted);
    }
  }

  /** A dictionary with one entry per sector has as many entries as there are sectors. */
  lemma {:induction false} DistinctCard(t: seq<SectorCount>)
    requires DistinctSectors(t)
    ensures |set e | e in t :: e.sector| == |t|
  {
    if t != [] {
      var rest := t[1..];
      DistinctCard(rest);
      var a := set e | e in t :: e.sector;
      var b := set e | e in rest :: e.sector;
      assert a == {t[0].sector} + b by {
        forall x ensures x in a <==> x in {t[0].sector} + b {
          if x in a {
            var e :| e in t && e.sector == x;
            if e != t[0] {
              var k :| 0 <= k < |t| && t[k] == e;
              assert e == rest[k - 1];
            }
          }
          if x in b {
            var e :| e in rest && e.sector == x;
            assert e in t;
          }
        }
      }
    }
  }

  /** A tallied dictionary has one entry per sector that occurs. */
  lemma TalliedSize(t: seq<SectorCount>, ns: seq<Notification>)
    requires Tallied(t, ns)
    ensures |t| == |SectorsOf(ns)|
  {
    DistinctCard(t);
    var a := set e | e in t :: e.sector;
    forall x ensures x in a <==> x in SectorsOf(ns) {
      if x in a {
        var e :| e in t && e.sector == x;
        var k :| 0 <= k < |t| && t[k] == e;
        assert HasSector(t, x);
      }
      if x in SectorsOf(ns) {
        assert HasSector(t, x);
        var k :| 0 <= k < |t| && t[k].sector == x;
        assert t[k] in t;
      }
    }
    assert a == SectorsOf(ns);
  }

  /** Every entry of the sorted dictionary is a sector that occurs, with its volume. */
  lemma SortedEntriesTallied(ns: seq<Notification>, counts: seq<SectorCount>)
    requires Tallied(counts, ns)
    ensures |SortByCount(counts)| == |counts|
    ensures forall k :: 0 <= k < |SortByCount(counts)| ==>
              SortByCount(counts)[k].sector in SectorsOf(ns) &&
              SortByCount(counts)[k].count == SectorVolume(ns, SortByCount(counts)[k].sector)
  {
    var sorted := SortByCount(counts);
    assert |sorted| == |counts| by {
      assert |multiset(sorted)| == |multiset(counts)|;
    }
    forall k | 0 <= k < |sorted|
      ensures sorted[k].sector in SectorsOf(ns) && sorted[k].count == SectorVolume(ns, sorted[k].sector)
    {
      assert sorted[k] in multiset(counts);
      var c :| 0 <= c < |counts| && counts[c] == sorted[k];
      assert HasSector(counts, counts[c].sector);
    }
  }

  /** A sector missing from a prefix of the ranking is behind every entry of that prefix. */
  lemma LeftOutIsBehind(ns: seq<Notification>, counts: seq<SectorCount>, top: seq<SectorCount>, s: string, i: int)
    requires Tallied(counts, ns)
    requires Ranked(ns, SortByCount(counts))
    requires |top| <= |SortByCount(counts)| && top == SortByCount(counts)[..|top|]
    requires s in SectorsOf(ns) && 0 <= i < |top|
    requires forall k :: 0 <= k < |top| ==> top[k].sector != s
    ensures Ahead(ns, top[i], SectorCount(s, SectorVolume(ns, s)))
  {
    var sorted := SortByCount(counts);
    assert HasSector(counts, s);
    var c :| 0 <= c < |counts| && counts[c].sector == s;
    assert counts[c] in multiset(sorted);
    var j :| 0 <= j < |sorted| && sorted[j] == counts[c];
    assert forall k :: 0 <= k < |top| ==> top[k] == sorted[k];
    assert i < j;
  }

  /** No sector left out of a prefix of the ranking is ahead of an entry of the prefix. */
  lemma LeftOutAreBehind(ns: seq<Notification>, counts: seq<SectorCount>, top: seq<SectorCount>)
    requires Tallied(counts, ns)
    requires Ranked(ns, SortByCount(counts))
    requires |top| <= |SortByCount(counts)| && top == SortByCount(counts)[..|top|]
    ensures forall s, i :: (s in SectorsOf(ns) && 0 <= i < |top| &&
                            (forall k :: 0 <= k < |top| ==> top[k].sector != s)) ==>
              Ahead(ns, top[i], SectorCount(s, SectorVolume(ns, s)))
  {
    forall s, i | s in SectorsOf(ns) && 0 <= i < |top| &&
                  (forall k :: 0 <= k < |top| ==> top[k].sector != s)
      ensures Ahead(ns, top[i], SectorCount(s, SectorVolume(ns, s)))
    {
      LeftOutIsBehind(ns, counts, top, s, i);
    }
  }

  /** The tally loop: one pass over the notifications, bumping the entry of each one's notified sector. */
  method TallySectors(ns: seq<Notification>) returns (counts: seq<SectorCount>)
    ensures Tallied(counts, ns)
  {
    counts := [];
    var i := 0;
    while i < |ns|
      invariant 0 <= i <= |ns|
      invariant Tallied(counts, ns[..i])
    {
      TallyStep(counts, ns[..i], ns[i]);
      assert ns[..i + 1] == ns[..i] + [ns[i]];
      counts := Bump(counts, ns[i].notifiedSector);
      i := i + 1;
    }
    assert ns[..|ns|] == ns;
  }

  /** The first `n` entries of a ranked, tallied ranking are distinct sectors with non-increasing volumes. */
  lemma RankedPrefixDistinct(ns: seq<Notification>, sorted: seq<SectorCount>, n: nat)
    requires Ranked(ns, sorted) && n <= |sorted|
    requires forall k :: 0 <= k < |sorted| ==> sorted[k].count == SectorVolume(ns, sorted[k].sector)
    ensures forall i, j :: 0 <= i < j < n ==> Ahead(ns, sorted[..n][i], sorted[..n][j])
    ensures forall i, j :: 0 <= i < j < n ==>
              sorted[..n][i].count >= sorted[..n][j].count && sorted[..n][i].sector != sorted[..n][j].sector
  {
    forall i, j | 0 <= i < j < n
      ensures sorted[..n][i].count >= sorted[..n][j].count && sorted[..n][i].sector != sorted[..n][j].sector
    {
      assert Ahead(ns, sorted[i], sorted[j]);
    }
  }

  /**
   * `topSectors`: at most three sectors, each with its true volume, ranked by volume and
   * then by first sighting, and no sector left out ranks ahead of any sector kept.
   */
  method ComputeTopSectors(ns: seq<Notification>) returns (top: seq<SectorCount>)
    ensures |top| == Min(3, |SectorsOf(ns)|)
    ensures forall i :: 0 <= i < |top| ==>
              top[i].sector in SectorsOf(ns) && top[i].count == SectorVolume(ns, top[i].sector)
    ensures forall i, j :: 0 <= i < j < |top| ==> Ahead(ns, top[i], top[j])
    ensures forall i, j :: 0 <= i < j < |top| ==>
              top[i].count >= top[j].count && top[i].sector != top[j].sector
    ensures forall s, i :: (s in SectorsOf(ns) && 0 <= i < |top| &&
                            (forall k :: 0 <= k < |top| ==> top[k].sector != s)) ==>
              Ahead(ns, top[i], SectorCount(s, SectorVolume(ns, s)))
  {
    var counts := TallySectors(ns);
    TalliedSize(counts, ns);
    SortRanked(ns, counts);
    SortedEntriesTallied(ns, counts);
    var sorted := SortByCount(counts);
    var n := Min(3, |sorted|);
    RankedPrefixDistinct(ns, sorted, n);
    top := sorted[..n];
    LeftOutAreBehind(ns, counts, top);
  }
}
