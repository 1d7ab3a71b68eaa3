/**
 * The history update of the client's prediction store: a bounded, newest-first list
 * that skips empty and "no sign" predictions. Everything here is pure; the class that
 * holds the state is in module AppState.
 */
module History {
  import opened Wrappers
  import opened Envelope

  /** The number of predictions the client keeps. */
  const HistoryLimit: nat := 10

  /** JavaScript's `s.slice(0, n)`: the first `n` elements, or all of them when there are fewer. */
  function Take<T>(s: seq<T>, n: nat): (r: seq<T>)
    ensures |r| == if |s| <= n then |s| else n
    ensures r == s[..|r|]
  {
    if |s| <= n then s else s[..n]
  }

  /** The guard of the store: a prediction is recorded when it is present and not the sentinel. */
  predicate Recordable(p: Option<PredictionBody>)
  {
    p.Some? && p.value.predictedGloss != NoSignDetected
  }

  /** `[prediction, ...prev].slice(0, 10)`. */
  function Push(h: seq<PredictionBody>, p: PredictionBody): (r: seq<PredictionBody>)
    ensures |r| == if |h| < HistoryLimit then |h| + 1 else HistoryLimit
    ensures r[0] == p
    ensures forall i :: 1 <= i < |r| ==> r[i] == h[i - 1]
  {
    Take([p] + h, HistoryLimit)
  }

  /**
   * The history after one prediction has been handled: a recordable prediction goes in
   * front of the previous first nine entries, anything else leaves the history as it was.
   */
  function Record(h: seq<PredictionBody>, p: Option<PredictionBody>): (r: seq<PredictionBody>)
    ensures Recordable(p) ==> r == [p.value] + Take(h, HistoryLimit - 1)
    ensures !Recordable(p) ==> r == h
  {
    if Recordable(p) then Push(h, p.value) else h
  }

  /** What the store keeps true of its history: at most ten entries and no sentinel among them. */
  predicate HistoryInvariant(h: seq<PredictionBody>)
  {
    |h| <= HistoryLimit && forall i :: 0 <= i < |h| ==> h[i].predictedGloss != NoSignDetected
  }

  /** The store's history after handling `ps` in order, starting from `h`. */
  function Replay(h: seq<PredictionBody>, ps: seq<Option<PredictionBody>>): seq<PredictionBody>
    decreases |ps|
  {
    if ps == [] then h else Record(Replay(h, ps[..|ps| - 1]), ps[|ps| - 1])
  }

  /** The predictions among `ps` that the store records, oldest first. */
  function Accepted(ps: seq<Option<PredictionBody>>): seq<PredictionBody>
    decreases |ps|
  {
    if ps == [] then []
    else
      var last := ps[|ps| - 1];
      Accepted(ps[..|ps| - 1]) + if Recordable(last) then [last.value] else []
  }

  /** The elements of `s` in the opposite order. */
  function Reverse<T>(s: seq<T>): (r: seq<T>)
    ensures |r| == |s|
    ensures forall i :: 0 <= i < |s| ==> r[i] == s[|s| - 1 - i]
  {
    if s == [] then [] else [s[|s| - 1]] + Reverse(s[..|s| - 1])
  }

  /** One call of the store's update keeps its invariant, whatever arrives. */
  lemma RecordPreservesInvariant(h: seq<PredictionBody>, p: Option<PredictionBody>)
    requires HistoryInvariant(h)
    ensures HistoryInvariant(Record(h, p))
    ensures !Recordable(p) ==> Record(h, p) == h
    ensures Recordable(p) ==> Record(h, p) == Take([p.value] + h, HistoryLimit)
  {
  }

  /** However many predictions arrive, the history never holds more than ten nor any sentinel. */
  lemma {:induction false} ReplayPreservesInvariant(h: seq<PredictionBody>, ps: seq<Option<PredictionBody>>)
    requires HistoryInvariant(h)
    ensures HistoryInvariant(Replay(h, ps))
    decreases |ps|
  {
    if ps != [] {
      ReplayPreservesInvariant(h, ps[..|ps| - 1]);
      RecordPreservesInvariant(Replay(h, ps[..|ps| - 1]), ps[|ps| - 1]);
    }
  }

  lemma TakeOfCons<T>(x: T, s: seq<T>, n: nat)
    requires n >= 1
    ensures Take([x] + Take(s, n), n) == Take([x] + s, n)
  {
  }

  lemma ReverseOfSnoc<T>(s: seq<T>, x: T)
    ensures Reverse(s + [x]) == [x] + Reverse(s)
  {
    assert (s + [x])[..|s|] == s;
  }

  /**
   * The reference description of the store: after handling `ps`, the history is the
   * recorded predictions, newest first, followed by the old history, cut to ten entries.
   */
  lemma {:induction false} ReplayIsNewestFirst(h: seq<PredictionBody>, ps: seq<Option<PredictionBody>>)
    requires |h| <= HistoryLimit
    ensures Replay(h, ps) == Take(Reverse(Accepted(ps)) + h, HistoryLimit)
    decreases |ps|
  {
    if ps == [] {
      assert Reverse(Accepted(ps)) == [];
    } else {
      var qs, p := ps[..|ps| - 1], ps[|ps| - 1];
      ReplayIsNewestFirst(h, qs);
      if Recordable(p) {
        assert Accepted(ps) == Accepted(qs) + [p.value];
        ReverseOfSnoc(Accepted(qs), p.value);
        TakeOfCons(p.value, Reverse(Accepted(qs)) + h, HistoryLimit);
        assert [p.value] + (Reverse(Accepted(qs)) + h) == Reverse(Accepted(ps)) + h;
      } else {
        assert Accepted(ps) == Accepted(qs);
      }
    }
  }

  lemma {:induction false} AcceptedWhenAllRecordable(ps: seq<Option<PredictionBody>>)
    requires forall i :: 0 <= i < |ps| ==> Recordable(ps[i])
    ensures |Accepted(ps)| == |ps|
    ensures forall i :: 0 <= i < |ps| ==> ps[i] == Some(Accepted(ps)[i])
    decreases |ps|
  {
    if ps != [] {
      AcceptedWhenAllRecordable(ps[..|ps| - 1]);
    }
  }

  lemma TakeElements<T>(s: seq<T>, r: seq<T>)
    requires r == Take(s, HistoryLimit)
    ensures |r| == if |s| <= HistoryLimit then |s| else HistoryLimit
    ensures forall i :: 0 <= i < |r| ==> r[i] == s[i]
  {
  }

  lemma ReverseElements<T>(s: seq<T>, r: seq<T>)
    requires r == Reverse(s)
    ensures |r| == |s|
    ensures forall i :: 0 <= i < |r| ==> r[i] == s[|s| - 1 - i]
  {
  }

  /** A prefix of a backwards copy of the accepted predictions reads `ps` from its end. */
  lemma BackwardsPrefix(
    ps: seq<Option<PredictionBody>>, accepted: seq<PredictionBody>,
    newest: seq<PredictionBody>, r: seq<PredictionBody>)
    requires |accepted| == |ps| && forall i :: 0 <= i < |ps| ==> ps[i] == Some(accepted[i])
    requires |newest| == |accepted| && forall i :: 0 <= i < |newest| ==> newest[i] == accepted[|accepted| - 1 - i]
    requires |r| <= |newest| && forall i :: 0 <= i < |r| ==> r[i] == newest[i]
    ensures forall i :: 0 <= i < |r| ==> ps[|ps| - 1 - i] == Some(r[i])
  {
  }

  /**
   * Starting from an empty history, recording predictions that are all kept leaves the
   * newest ten, newest first: the oldest ones are the ones dropped.
   */
  lemma NewestTenKept(ps: seq<Option<PredictionBody>>)
    requires forall i :: 0 <= i < |ps| ==> Recordable(ps[i])
    ensures |Replay([], ps)| == if |ps| <= HistoryLimit then |ps| else HistoryLimit
    ensures forall i :: 0 <= i < |Replay([], ps)| ==> ps[|ps| - 1 - i] == Some(Replay([], ps)[i])
  {
    var accepted := Accepted(ps);
    var newest := Reverse(accepted);
    var r := Replay([], ps);
    ReplayIsNewestFirst([], ps);
    AcceptedWhenAllRecordable(ps);
    assert newest + [] == newest;
    ReverseElements(accepted, newest);
    TakeElements(newest, r);
    BackwardsPrefix(ps, accepted, newest, r);
  }

  /** The twelve-prediction scenario: P1..P12 leave [P12, P11, ..., P3]. */
  lemma TwelveLeaveNewestTen(ps: seq<Option<PredictionBody>>)
    requires |ps| == 12 && forall i :: 0 <= i < 12 ==> Recordable(ps[i])
    ensures |Replay([], ps)| == 10
    ensures ps[11] == Some(Replay([], ps)[0]) && ps[2] == Some(Replay([], ps)[9])
    ensures forall i :: 0 <= i < 10 ==> ps[11 - i] == Some(Replay([], ps)[i])
  {
    NewestTenKept(ps);
  }

  /** A recognised sign followed by a "no sign" frame: only the first one enters the history. */
  lemma SentinelIsNotRecorded(first: PredictionBody, second: PredictionBody)
    requires first.predictedGloss != NoSignDetected && second.predictedGloss == NoSignDetected
    ensures Replay([], [Some(first), Some(second)]) == [first]
  {
    var ps := [Some(first), Some(second)];
    assert ps[..1] == [Some(first)] && ps[..1][..0] == [];
    assert Replay([], ps[..1]) == Push([], first) == [first];
  }
}
