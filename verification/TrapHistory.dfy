/** What becomes of motion that is over: the history of the motion queue. */
module TrapHistory {
  import opened TrapTimeline

  /** The entries that move, fillers left out. */
  function Reals(ms: seq<Entry>): seq<Entry> {
    if ms == [] then [] else Reals(ms[..|ms| - 1]) + (if Moving(ms[|ms| - 1]) then [ms[|ms| - 1]] else [])
  }

  /** The history, which holds the newest first, in the order of time. */
  function Backwards(h: seq<Entry>): (r: seq<Entry>)
    ensures |r| == |h|
  {
    seq(|h|, i requires 0 <= i < |h| => h[|h| - 1 - i])
  }

  lemma {:induction false} RealsAppend(a: seq<Entry>, b: seq<Entry>)
    ensures Reals(a + b) == Reals(a) + Reals(b)
    decreases |b|
  {
    if b == [] {
      assert a + b == a;
    } else {
      var n := |b| - 1;
      assert (a + b)[..|a + b| - 1] == a + b[..n];
      RealsAppend(a, b[..n]);
      var own := if Moving(b[n]) then [b[n]] else [];
      assert Reals(a) + Reals(b[..n]) + own == Reals(a) + (Reals(b[..n]) + own);
    }
  }

  lemma {:induction false} ArchiveIs(expired: seq<Entry>, history: seq<Entry>)
    ensures Backwards(Archive(expired, history)) == Backwards(history) + Reals(expired)
    decreases |expired|
  {
    if expired == [] {
      assert Backwards(history) + [] == Backwards(history);
    } else {
      hide Reals, Moving, Backwards;
      var m, rest := expired[0], expired[1..];
      var next := if Moving(m) then [m] + history else history;
      ArchiveIs(rest, next);
      assert expired == [m] + rest;
      RealsAppend([m], rest);
      NextArchived(m, history);
      Assoc(Backwards(history), Reals([m]), Reals(rest));
    }
  }

  lemma Assoc(a: seq<Entry>, b: seq<Entry>, c: seq<Entry>)
    ensures a + b + c == a + (b + c)
  {
  }

  lemma NextArchived(m: Entry, history: seq<Entry>)
    ensures Backwards(if Moving(m) then [m] + history else history) == Backwards(history) + Reals([m])
  {
    OneReal(m);
  }

  lemma OneReal(m: Entry)
    ensures Reals([m]) == if Moving(m) then [m] else []
  {
    assert [m][..0] == [];
  }

  /** Pruning drops the oldest entries as long as they ended by the clear time, and keeps the newest in any case. */
  lemma {:induction false} PruneIs(h: seq<Entry>, clearTime: real) returns (k: nat)
    ensures k <= |h| && Prune(h, clearTime) == h[..k] && (h != [] ==> 1 <= k)
    ensures forall i :: k <= i < |h| ==> h[i].EndTime() <= clearTime
    ensures 1 < k ==> clearTime < h[k - 1].EndTime()
    decreases |h|
  {
    if |h| <= 1 || h[|h| - 1].EndTime() > clearTime {
      k := |h|;
      assert h[..k] == h;
    } else {
      k := PruneIs(h[..|h| - 1], clearTime);
      assert h[..|h| - 1][..k] == h[..k];
    }
  }

  /** All that was appended in a run and moves, in order. */
  function Driven(es: seq<Event>): seq<Entry> {
    if es == [] then []
    else
      Driven(es[..|es| - 1]) + match es[|es| - 1] case Appended(a) => Reals(Pieces(a)) case _ => []
  }

  /** Some call allowed history up to this time to be dropped. */
  predicate Cleared(es: seq<Event>, time: real) {
    es != [] && (Cleared(es[..|es| - 1], time)
                 || (es[|es| - 1].Finalized? && time <= es[|es| - 1].clearTime))
  }

  lemma AddedReals(q: Timeline, m: Entry)
    ensures Reals(AddMove(q, m).moves) == Reals(q.moves) + Reals([m]) && AddMove(q, m).history == q.history
  {
    var prev := Last(q.moves);
    RealsAppend(Filled(q.moves, m), [m]);
    if Gap(prev, m) {
      var filler := Filler(prev, m);
      OneReal(filler);
      RealsAppend(q.moves, [filler]);
      assert Reals(q.moves) + [] == Reals(q.moves);
    }
  }

  lemma {:induction false} AllAddedReals(q: Timeline, ms: seq<Entry>)
    ensures Reals(AddAll(q, ms).moves) == Reals(q.moves) + Reals(ms) && AddAll(q, ms).history == q.history
    decreases |ms|
  {
    hide AddMove;
    if ms == [] {
      assert Reals(q.moves) + [] == Reals(q.moves);
    } else {
      var n := |ms| - 1;
      AllAddedReals(q, ms[..n]);
      AddedReals(AddAll(q, ms[..n]), ms[n]);
      assert ms == ms[..n] + [ms[n]];
      RealsAppend(ms[..n], [ms[n]]);
      assert Reals(q.moves) + Reals(ms[..n]) + Reals([ms[n]]) == Reals(q.moves) + (Reals(ms[..n]) + Reals([ms[n]]));
    }
  }

  /** The history and what still moves on the queue. */
  function Kept(q: Timeline): seq<Entry> {
    Backwards(q.history) + Reals(q.moves)
  }

  /** What finalizing drops from the history: what ended by the clear time, as much of it as it can, and never the newest
    * entry. */
  lemma FinalizedKept(q: Timeline, printTime: real, clearTime: real) returns (n: nat)
    ensures n <= |Kept(q)| && Kept(Finalize(q, printTime, clearTime)) == Kept(q)[n..]
    ensures forall i :: 0 <= i < n ==> Kept(q)[i].EndTime() <= clearTime
    ensures var h := Finalize(q, printTime, clearTime).history;
            && (1 < |h| ==> clearTime < h[|h| - 1].EndTime())
            && (h == [] ==> q.history == [] && Reals(q.moves[..Expired(q.moves, printTime)]) == [])
  {
    hide *;
    var e := Expired(q.moves, printTime);
    var h, rest := Archive(q.moves[..e], q.history), Reals(q.moves[e..]);
    var r := Finalize(q, printTime, clearTime);
    FinalizeIs(q, printTime, clearTime);
    KeptIs(r);
    ArchivedKept(q, e);
    var k := PruneIs(h, clearTime);
    n := |h| - k;
    PrunedBackwards(h, k, clearTime);
    Longer(Backwards(h), rest, n);
    FirstOnes(Backwards(h), rest, n, clearTime);
    if h == [] {
      NothingArchived(q.moves[..e], q.history);
    }
  }

  lemma FinalizeIs(q: Timeline, printTime: real, clearTime: real)
    ensures var e := Expired(q.moves, printTime); var r := Finalize(q, printTime, clearTime);
            r.moves == q.moves[e..] && r.history == Prune(Archive(q.moves[..e], q.history), clearTime)
  {
    hide Prune, Archive, Expired;
  }

  lemma KeptIs(q: Timeline)
    ensures Kept(q) == Backwards(q.history) + Reals(q.moves)
  {
    hide Backwards, Reals;
  }

  lemma FirstOnes(a: seq<Entry>, b: seq<Entry>, n: nat, time: real)
    requires n <= |a| && forall i :: 0 <= i < n ==> a[i].EndTime() <= time
    ensures forall i :: 0 <= i < n ==> (a + b)[i].EndTime() <= time
  {
    hide Entry.EndTime;
  }

  lemma ArchivedKept(q: Timeline, e: nat)
    requires e <= |q.moves|
    ensures Kept(q) == Backwards(Archive(q.moves[..e], q.history)) + Reals(q.moves[e..])
  {
    hide Archive, Reals, Backwards;
    ArchiveIs(q.moves[..e], q.history);
    assert q.moves == q.moves[..e] + q.moves[e..];
    RealsAppend(q.moves[..e], q.moves[e..]);
    Assoc(Backwards(q.history), Reals(q.moves[..e]), Reals(q.moves[e..]));
  }

  lemma PrunedBackwards(h: seq<Entry>, k: nat, clearTime: real)
    requires k <= |h| && forall i :: k <= i < |h| ==> h[i].EndTime() <= clearTime
    ensures Backwards(h[..k]) == Backwards(h)[|h| - k..]
    ensures forall i :: 0 <= i < |h| - k ==> Backwards(h)[i].EndTime() <= clearTime
  {
    hide Entry.EndTime;
  }

  lemma NothingArchived(expired: seq<Entry>, history: seq<Entry>)
    requires Archive(expired, history) == []
    ensures history == [] && Reals(expired) == []
  {
    hide Archive, Reals;
    ArchiveIs(expired, history);
    assert |Backwards(history) + Reals(expired)| == 0;
  }

  /** After any run of append, finalize and check_sentinels, the history followed by the queue, fillers left out, is all
    * that was appended, in order, but for a first part of which every entry ended by a time up to which history was to
    * be cleared. */
  lemma {:induction false} HistoryIsComplete(es: seq<Event>) returns (n: nat)
    ensures n <= |Driven(es)| && Kept(Run(es)) == Driven(es)[n..]
    ensures forall i :: 0 <= i < n ==> Cleared(es, Driven(es)[i].EndTime())
  {
    hide Append, Finalize, CheckSentinels, Kept, Reals, Pieces;
    if es == [] {
      n := 0;
      NothingKept();
    } else {
      var prev := es[..|es| - 1];
      n := HistoryIsComplete(prev);
      var q := Run(prev);
      match es[|es| - 1]
      case Appended(a) =>
        AppendedKept(q, a);
        Longer(Driven(prev), Reals(Pieces(a)), n);
      case Finalized(t, c) =>
        var k := FinalizedKept(q, t, c);
        assert Driven(prev) + [] == Driven(prev);
        assert forall i :: n <= i < n + k ==> Driven(prev)[i] == Kept(q)[i - n];
        n := n + k;
      case Checked =>
        assert Driven(prev) + [] == Driven(prev);
        CheckedKept(q);
    }
  }

  lemma Longer(a: seq<Entry>, b: seq<Entry>, n: nat)
    requires n <= |a|
    ensures a[n..] + b == (a + b)[n..]
  {
  }

  lemma NothingKept()
    ensures Kept(EMPTY) == []
  {
  }

  lemma AppendedKept(q: Timeline, a: Trapezoid)
    ensures Kept(Append(q, a)) == Kept(q) + Reals(Pieces(a))
  {
    hide Reals, AddAll;
    AllAddedReals(q, Pieces(a));
    assert Backwards(q.history) + Reals(q.moves) + Reals(Pieces(a))
        == Backwards(q.history) + (Reals(q.moves) + Reals(Pieces(a)));
  }

  lemma CheckedKept(q: Timeline)
    ensures Kept(CheckSentinels(q)) == Kept(q)
  {
  }
}
