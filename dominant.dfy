/**
 * The dominant-emotion ranking inside analyzeEmotions (emotionAnalysis.ts):
 * the labels of at least 5%, sorted by decreasing value. The sort the source
 * calls is stable, so labels of equal value keep their label order; it is
 * modelled as a stable insertion sort.
 */
module Dominant {
  import opened Emotions

  /** EMOTION_THRESHOLDS.WEAK */
  const DominantThreshold: real := 0.05

  /** One [emotion, value] pair of the entries being ranked. */
  datatype Entry = Entry(emotion: Emotion, value: real)

  /** The filter over the first n labels, in label order. */
  function EntriesAbove(v: Vector, n: nat): seq<Entry>
    requires n <= |Labels|
  {
    if n == 0 then []
    else
      var e := Labels[n - 1];
      EntriesAbove(v, n - 1) + (if v.At(e) >= DominantThreshold then [Entry(e, v.At(e))] else [])
  }

  /** The order the stable descending sort produces: larger value first, ties in label order. */
  predicate Before(a: Entry, b: Entry) {
    a.value > b.value || (a.value == b.value && IndexOf(a.emotion) < IndexOf(b.emotion))
  }

  predicate Ranked(s: seq<Entry>) {
    forall i, j | 0 <= i < j < |s| :: Before(s[i], s[j])
  }

  /** Insert x after every entry of value at least x's. */
  function Insert(s: seq<Entry>, x: Entry): (r: seq<Entry>)
    ensures multiset(r) == multiset(s) + multiset{x}
    ensures |r| == |s| + 1
  {
    if s == [] then [x]
    else if s[0].value >= x.value then
      assert s == [s[0]] + s[1..];
      [s[0]] + Insert(s[1..], x)
    else [x] + s
  }

  /** Stable insertion sort, descending by value. */
  function SortDescending(s: seq<Entry>): (r: seq<Entry>)
    ensures multiset(r) == multiset(s)
  {
    if s == [] then []
    else
      assert s == s[..|s| - 1] + [s[|s| - 1]];
      Insert(SortDescending(s[..|s| - 1]), s[|s| - 1])
  }

  /** The ranked entries of a normalised vector. */
  function DominantEntries(v: Vector): seq<Entry> {
    SortDescending(EntriesAbove(v, |Labels|))
  }

  /** dominantEmotions: the labels of the ranked entries. */
  function DominantEmotions(v: Vector): (r: seq<Emotion>)
    ensures |r| == |DominantEntries(v)|
    ensures forall i | 0 <= i < |r| :: r[i] == DominantEntries(v)[i].emotion
  {
    EmotionsOfEntries(DominantEntries(v))
  }

  function EmotionsOfEntries(s: seq<Entry>): (r: seq<Emotion>)
    ensures |r| == |s|
    ensures forall i | 0 <= i < |r| :: r[i] == s[i].emotion
  {
    if s == [] then [] else EmotionsOfEntries(s[..|s| - 1]) + [s[|s| - 1].emotion]
  }

  // ---------------------------------------------------------------- properties

  /** The filtered entries come in strictly increasing label order, each with its label's value, exactly the labels of at least 5%. */
  lemma {:induction false} EntriesAboveExact(v: Vector, n: nat)
    requires n <= |Labels|
    ensures forall i, j | 0 <= i < j < |EntriesAbove(v, n)| ::
      IndexOf(EntriesAbove(v, n)[i].emotion) < IndexOf(EntriesAbove(v, n)[j].emotion)
    ensures forall x | x in EntriesAbove(v, n) :: IndexOf(x.emotion) < n
    ensures forall e: Emotion, w: real :: Entry(e, w) in EntriesAbove(v, n) <==>
      IndexOf(e) < n && w == v.At(e) && v.At(e) >= DominantThreshold
  {
    if n > 0 {
      EntriesAboveExact(v, n - 1);
      var e := Labels[n - 1];
      assert IndexOf(e) == n - 1;
      var prior := EntriesAbove(v, n - 1);
      assert EntriesAbove(v, n) == prior + (if v.At(e) >= DominantThreshold then [Entry(e, v.At(e))] else []);
      forall e': Emotion, w: real
        ensures Entry(e', w) in EntriesAbove(v, n) <==> IndexOf(e') < n && w == v.At(e') && v.At(e') >= DominantThreshold
      {
        if IndexOf(e') == n - 1 {
          assert e' == Labels[IndexOf(e')];
        }
      }
    }
  }

  lemma RankedTail(s: seq<Entry>)
    requires Ranked(s) && s != []
    ensures Ranked(s[1..])
    ensures forall y | y in s[1..] :: Before(s[0], y)
  {
    var tail := s[1..];
    forall i, j | 0 <= i < j < |tail| ensures Before(tail[i], tail[j]) {
      assert tail[i] == s[i + 1] && tail[j] == s[j + 1];
    }
    forall y | y in tail ensures Before(s[0], y) {
      var k :| 0 <= k < |tail| && tail[k] == y;
      assert s[k + 1] == y;
    }
  }

  lemma RankedCons(a: Entry, t: seq<Entry>)
    requires Ranked(t)
    requires forall y | y in t :: Before(a, y)
    ensures Ranked([a] + t)
  {
    var r := [a] + t;
    forall i, j | 0 <= i < j < |r| ensures Before(r[i], r[j]) {
      assert r[j] == t[j - 1];
      if i > 0 {
        assert r[i] == t[i - 1];
      } else {
        assert t[j - 1] in t;
      }
    }
  }

  lemma InsertMembers(s: seq<Entry>, x: Entry)
    ensures forall y | y in Insert(s, x) :: y in s || y == x
  {
    var r := Insert(s, x);
    forall y | y in r ensures y in s || y == x {
      assert y in multiset(r);
    }
  }

  /** Inserting an entry whose label comes after every label already ranked keeps the ranking. */
  lemma {:induction false} InsertRanked(s: seq<Entry>, x: Entry)
    requires Ranked(s)
    requires forall y | y in s :: IndexOf(y.emotion) < IndexOf(x.emotion)
    ensures Ranked(Insert(s, x))
  {
    if s != [] {
      RankedTail(s);
      var tail := s[1..];
      if s[0].value >= x.value {
        assert forall y | y in tail :: y in s;
        InsertRanked(tail, x);
        InsertMembers(tail, x);
        assert s[0] in s;
        RankedCons(s[0], Insert(tail, x));
      } else {
        assert forall y | y in s :: y == s[0] || y in tail by {
          forall y | y in s ensures y == s[0] || y in tail {
            var k :| 0 <= k < |s| && s[k] == y;
            if k > 0 { assert tail[k - 1] == y; }
          }
        }
        assert s == [s[0]] + tail;
        RankedCons(x, s);
      }
    }
  }

  /** Sorting entries given in strictly increasing label order ranks them. */
  lemma {:induction false} SortRanks(s: seq<Entry>)
    requires forall i, j | 0 <= i < j < |s| :: IndexOf(s[i].emotion) < IndexOf(s[j].emotion)
    ensures Ranked(SortDescending(s))
  {
    if s != [] {
      var init := s[..|s| - 1];
      var x := s[|s| - 1];
      SortRanks(init);
      var sorted := SortDescending(init);
      forall y | y in sorted ensures IndexOf(y.emotion) < IndexOf(x.emotion) {
        assert y in multiset(sorted);
        assert y in multiset(init);
        var k :| 0 <= k < |init| && init[k] == y;
        assert s[k] == y;
      }
      InsertRanked(sorted, x);
    }
  }

  /** Ranking keeps exactly the filtered entries. */
  lemma SameEntries(v: Vector)
    ensures forall x :: x in DominantEntries(v) <==> x in EntriesAbove(v, |Labels|)
  {
    var f := EntriesAbove(v, |Labels|);
    var r := DominantEntries(v);
    assert multiset(r) == multiset(f);
    forall x ensures x in r <==> x in f {
      assert x in r <==> x in multiset(r);
      assert x in f <==> x in multiset(f);
    }
  }

  /**
   * Dominant emotions are ranked by decreasing value, ties in label order,
   * so each label appears at most once.
   */
  lemma DominantRanked(v: Vector)
    ensures Ranked(DominantEntries(v))
    ensures forall i, j | 0 <= i < j < |DominantEntries(v)| ::
      DominantEntries(v)[i].value >= DominantEntries(v)[j].value && DominantEntries(v)[i].emotion != DominantEntries(v)[j].emotion
  {
    EntriesAboveExact(v, |Labels|);
    SortRanks(EntriesAbove(v, |Labels|));
    SameEntries(v);
    var r := DominantEntries(v);
    forall i, j | 0 <= i < j < |r| ensures r[i].value >= r[j].value && r[i].emotion != r[j].emotion {
      assert Before(r[i], r[j]);
      assert r[i] in r && r[j] in r;
    }
  }

  /** Dominant emotions are exactly the labels of at least 5%, each with its own value. */
  lemma DominantMembers(v: Vector, e: Emotion, w: real)
    ensures Entry(e, w) in DominantEntries(v) <==> w == v.At(e) && v.At(e) >= DominantThreshold
    ensures e in DominantEmotions(v) <==> v.At(e) >= DominantThreshold
  {
    EntriesAboveExact(v, |Labels|);
    SameEntries(v);
    var r := DominantEntries(v);
    var es := DominantEmotions(v);
    if e in es {
      var k :| 0 <= k < |es| && es[k] == e;
      assert r[k] in r;
      assert r[k] == Entry(e, r[k].value);
    }
    if v.At(e) >= DominantThreshold {
      assert Entry(e, v.At(e)) in r;
      var k :| 0 <= k < |r| && r[k] == Entry(e, v.At(e));
      assert es[k] == e;
      assert es[k] in es;
    }
  }

  /** Neutral 0.2, happy 0.6, fearful 0.2: happy first, then the tied labels in label order. */
  lemma TiedLabelsKeepOrder()
    ensures DominantEmotions(Vector(0.2, 0.6, 0.0, 0.0, 0.2, 0.0, 0.0)) == [Happy, Neutral, Fearful]
  {
    var v := Vector(0.2, 0.6, 0.0, 0.0, 0.2, 0.0, 0.0);
    TiedSampleEntries();
    TiedSampleSorted();
    var r := DominantEmotions(v);
    assert DominantEntries(v) == [Entry(Happy, 0.6), Entry(Neutral, 0.2), Entry(Fearful, 0.2)];
    assert |r| == 3 && r[0] == Happy && r[1] == Neutral && r[2] == Fearful;
  }

  lemma TiedSampleEntries()
    ensures EntriesAbove(Vector(0.2, 0.6, 0.0, 0.0, 0.2, 0.0, 0.0), |Labels|)
         == [Entry(Neutral, 0.2), Entry(Happy, 0.6), Entry(Fearful, 0.2)]
  {
    var v := Vector(0.2, 0.6, 0.0, 0.0, 0.2, 0.0, 0.0);
    assert Labels[0] == Neutral && Labels[1] == Happy && Labels[2] == Sad && Labels[3] == Angry;
    assert Labels[4] == Fearful && Labels[5] == Disgusted && Labels[6] == Surprised;
    assert EntriesAbove(v, 1) == [Entry(Neutral, 0.2)];
    assert EntriesAbove(v, 2) == [Entry(Neutral, 0.2), Entry(Happy, 0.6)];
    assert EntriesAbove(v, 3) == [Entry(Neutral, 0.2), Entry(Happy, 0.6)];
    assert EntriesAbove(v, 4) == [Entry(Neutral, 0.2), Entry(Happy, 0.6)];
    assert EntriesAbove(v, 5) == [Entry(Neutral, 0.2), Entry(Happy, 0.6), Entry(Fearful, 0.2)];
    assert EntriesAbove(v, 6) == [Entry(Neutral, 0.2), Entry(Happy, 0.6), Entry(Fearful, 0.2)];
  }

  lemma TiedSampleSorted()
    ensures SortDescending([Entry(Neutral, 0.2), Entry(Happy, 0.6), Entry(Fearful, 0.2)])
         == [Entry(Happy, 0.6), Entry(Neutral, 0.2), Entry(Fearful, 0.2)]
  {
    var n, h, f := Entry(Neutral, 0.2), Entry(Happy, 0.6), Entry(Fearful, 0.2);
    assert [n, h][..1] == [n];
    assert SortDescending([n, h]) == Insert([n], h) == [h, n];
    assert [n, h, f][..2] == [n, h];
    assert Insert([n], f) == [n, f];
  }
}
