/** Search hits and the removal of repeated registration numbers. */
module Hits {
  datatype Hit = Hit(regNumber: string, noticeURL: string, law: string, objectName: string)

  function Numbers(hs: seq<Hit>): set<string> {
    set i | 0 <= i < |hs| :: hs[i].regNumber
  }

  ghost predicate Distinct(hs: seq<Hit>) {
    forall i, j :: 0 <= i < j < |hs| ==> hs[i].regNumber != hs[j].regNumber
  }

  /** The hits whose number does not occur earlier in the list, in order. */
  function FirstOccurrences(hs: seq<Hit>): seq<Hit> {
    if hs == [] then []
    else
      var before := hs[..|hs| - 1];
      var last := hs[|hs| - 1];
      FirstOccurrences(before) + if last.regNumber in Numbers(before) then [] else [last]
  }

  lemma NumbersOfOne(h: Hit)
    ensures Numbers([h]) == {h.regNumber}
  {
    assert [h][0] == h;
  }

  lemma NumbersConcat(a: seq<Hit>, b: seq<Hit>)
    ensures Numbers(a + b) == Numbers(a) + Numbers(b)
  {
    forall n | n in Numbers(a) + Numbers(b) ensures n in Numbers(a + b) {
      if n in Numbers(a) {
        var i :| 0 <= i < |a| && a[i].regNumber == n;
        assert (a + b)[i].regNumber == n;
      } else {
        var i :| 0 <= i < |b| && b[i].regNumber == n;
        assert (a + b)[|a| + i].regNumber == n;
      }
    }
  }

  lemma DistinctAppend(front: seq<Hit>, last: Hit)
    requires Distinct(front) && last.regNumber !in Numbers(front)
    ensures Distinct(front + [last])
  {
    forall i | 0 <= i < |front| ensures front[i].regNumber in Numbers(front) {
    }
  }

  /** Nothing is lost and nothing is kept twice. */
  lemma {:induction false} FirstOccurrencesKeepNumbers(hs: seq<Hit>)
    ensures Numbers(FirstOccurrences(hs)) == Numbers(hs)
    ensures Distinct(FirstOccurrences(hs))
    decreases |hs|
  {
    if hs != [] {
      hide Distinct, Numbers;
      var before, last := hs[..|hs| - 1], hs[|hs| - 1];
      var kept := FirstOccurrences(before);
      FirstOccurrencesKeepNumbers(before);
      assert before + [last] == hs;
      NumbersOfOne(last);
      NumbersConcat(before, [last]);
      NumbersConcat(kept, [last]);
      if last.regNumber in Numbers(before) {
        assert FirstOccurrences(hs) == kept;
      } else {
        DistinctAppend(kept, last);
      }
    }
  }

  /** The kept hits are as many as there are different numbers. */
  lemma {:induction false} FirstOccurrencesCount(hs: seq<Hit>)
    ensures |FirstOccurrences(hs)| == |Numbers(hs)|
    decreases |hs|
  {
    if hs != [] {
      var before, last := hs[..|hs| - 1], hs[|hs| - 1];
      FirstOccurrencesCount(before);
      NumbersConcat(before, [last]);
      assert before + [last] == hs;
      NumbersOfOne(last);
      assert last.regNumber in Numbers(before) ==> Numbers(hs) == Numbers(before);
    }
  }

  /** A kept hit is the very first one that carries its number. */
  lemma {:induction false} FirstOccurrencesAreFirst(hs: seq<Hit>, h: Hit)
    requires h in FirstOccurrences(hs)
    ensures exists i :: 0 <= i < |hs| && hs[i] == h && h.regNumber !in Numbers(hs[..i])
    decreases |hs|
  {
    var before := hs[..|hs| - 1];
    if h in FirstOccurrences(before) {
      FirstOccurrencesAreFirst(before, h);
      var i :| 0 <= i < |before| && before[i] == h && h.regNumber !in Numbers(before[..i]);
      assert hs[i] == h && hs[..i] == before[..i];
    } else {
      assert hs[|hs| - 1] == h && h.regNumber !in Numbers(hs[..|hs| - 1]);
    }
  }

  /** Reading on only adds to what was kept. */
  lemma {:induction false} FirstOccurrencesGrow(a: seq<Hit>, b: seq<Hit>)
    ensures FirstOccurrences(a) <= FirstOccurrences(a + b)
    decreases |b|
  {
    if b == [] {
      assert a + b == a;
    } else {
      FirstOccurrencesGrow(a, b[..|b| - 1]);
      assert (a + b)[..|a + b| - 1] == a + b[..|b| - 1];
    }
  }

  lemma NothingFirst()
    ensures Numbers([]) == {} && FirstOccurrences([]) == []
  {
  }

  /** One more hit. */
  lemma FirstOccurrencesStep(hs: seq<Hit>, h: Hit)
    ensures FirstOccurrences(hs + [h])
         == FirstOccurrences(hs) + if h.regNumber in Numbers(hs) then [] else [h]
  {
    assert (hs + [h])[..|hs|] == hs;
  }

  /** The same step seen from a list that is being read from the left. */
  lemma PrefixStep(hs: seq<Hit>, i: nat)
    requires i < |hs|
    ensures Numbers(hs[..i + 1]) == Numbers(hs[..i]) + {hs[i].regNumber}
    ensures FirstOccurrences(hs[..i + 1])
         == FirstOccurrences(hs[..i]) + if hs[i].regNumber in Numbers(hs[..i]) then [] else [hs[i]]
  {
    assert hs[..i + 1] == hs[..i] + [hs[i]];
    FirstOccurrencesStep(hs[..i], hs[i]);
    NumbersConcat(hs[..i], [hs[i]]);
    NumbersOfOne(hs[i]);
  }

  /** Hits whose numbers all occurred before add nothing. */
  lemma {:induction false} SeenHitsAddNothing(a: seq<Hit>, b: seq<Hit>)
    requires Numbers(b) <= Numbers(a)
    ensures FirstOccurrences(a + b) == FirstOccurrences(a)
    decreases |b|
  {
    if b == [] {
      assert a + b == a;
    } else {
      var front, last := b[..|b| - 1], b[|b| - 1];
      NumbersConcat(front, [last]);
      NumbersConcat(a, front);
      assert front + [last] == b;
      assert last.regNumber in Numbers(b);
      SeenHitsAddNothing(a, front);
      FirstOccurrencesStep(a + front, last);
      assert (a + front) + [last] == a + b;
    }
  }

  lemma DistinctParts(front: seq<Hit>, last: Hit)
    requires Distinct(front + [last])
    ensures Distinct(front) && last.regNumber !in Numbers(front)
    ensures Numbers(front + [last]) == Numbers(front) + {last.regNumber}
  {
    var b := front + [last];
    NumbersConcat(front, [last]);
    NumbersOfOne(last);
    assert forall i :: 0 <= i < |front| ==> b[i] == front[i];
    assert b[|front|] == last;
  }

  /** A list without repetitions is its own list of first occurrences. */
  lemma {:induction false} DistinctHitsAllKept(a: seq<Hit>, b: seq<Hit>)
    requires Distinct(b) && Numbers(a) !! Numbers(b)
    ensures FirstOccurrences(a + b) == FirstOccurrences(a) + b
    decreases |b|
  {
    hide Distinct, Numbers, FirstOccurrences;
    if b == [] {
      assert a + b == a;
    } else {
      var front, last := b[..|b| - 1], b[|b| - 1];
      assert front + [last] == b;
      DistinctParts(front, last);
      NumbersConcat(a, front);
      DistinctHitsAllKept(a, front);
      FirstOccurrencesStep(a + front, last);
      assert (a + front) + [last] == a + b;
    }
  }
}
