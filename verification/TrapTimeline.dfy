/** The trapezoid motion queue as a value: what is on it, what each operation does to it, and why the
  * timeline never has a hole.  `TrapQueue` (TrapQueue.dfy) is the queue that is updated in place. */
module TrapTimeline {

  datatype Coord = Coord(x: real, y: real, z: real)

  const ORIGIN := Coord(0.0, 0.0, 0.0)

  function Along(p: Coord, r: Coord, d: real): Coord {
    Coord(p.x + r.x * d, p.y + r.y * d, p.z + r.z * d)
  }

  /** struct move: constant acceleration along a line. */
  datatype Entry = Entry(printTime: real, moveT: real, startV: real, halfAccel: real, startPos: Coord, axesR: Coord)
  {
    /** move_get_distance */
    function Distance(t: real): real {
      (startV + halfAccel * t) * t
    }

    /** move_get_coord */
    function At(t: real): Coord {
      Along(startPos, axesR, Distance(t))
    }

    function EndTime(): real {
      printTime + moveT
    }

    function EndPos(): Coord {
      At(moveT)
    }

    /** The derivative of `Distance`. */
    function Speed(t: real): real {
      startV + 2.0 * halfAccel * t
    }

    function EndSpeed(): real {
      Speed(moveT)
    }
  }

  const NEVER_TIME := 9999999999999999.9
  const MAX_NULL_MOVE := 1.0
  const HEAD := Entry(0.0, 0.0, 0.0, 0.0, ORIGIN, ORIGIN)
  const EMPTY_TAIL := Entry(NEVER_TIME, NEVER_TIME, 0.0, 0.0, ORIGIN, ORIGIN)

  /** The queue between its sentinels.  The head sentinel is always HEAD; the tail sentinel changes.
    * `history` holds the newest entry first. */
  datatype Timeline = Timeline(moves: seq<Entry>, tail: Entry, history: seq<Entry>)

  const EMPTY := Timeline([], EMPTY_TAIL, [])

  /** The entry before the tail sentinel. */
  function Last(moves: seq<Entry>): Entry {
    if moves == [] then HEAD else moves[|moves| - 1]
  }

  // ----- operations -----

  /** trapq_add_move finds a time gap in front of m. */
  predicate Gap(prev: Entry, m: Entry) {
    prev.EndTime() < m.printTime
  }

  /** The filler that it puts there; the first one is short. */
  function Filler(prev: Entry, m: Entry): Entry {
    var from := if prev.printTime == 0.0 && m.printTime > MAX_NULL_MOVE
                then m.printTime - MAX_NULL_MOVE else prev.EndTime();
    Entry(from, m.printTime - from, 0.0, 0.0, m.startPos, ORIGIN)
  }

  /** The list with the filler, if one is needed. */
  function Filled(moves: seq<Entry>, m: Entry): seq<Entry> {
    if Gap(Last(moves), m) then moves + [Filler(Last(moves), m)] else moves
  }

  /** trapq_add_move */
  function AddMove(q: Timeline, m: Entry): Timeline {
    q.(moves := Filled(q.moves, m) + [m], tail := q.tail.(printTime := 0.0))
  }

  function AddAll(q: Timeline, ms: seq<Entry>): Timeline
    decreases |ms|
  {
    if ms == [] then q else AddMove(AddAll(q, ms[..|ms| - 1]), ms[|ms| - 1])
  }

  /** The arguments of trapq_append. */
  datatype Trapezoid = Trapezoid(printTime: real, accelT: real, cruiseT: real, decelT: real,
                                 startPos: Coord, axesR: Coord, startV: real, cruiseV: real, accel: real)

  function AccelPiece(a: Trapezoid): Entry {
    Entry(a.printTime, a.accelT, a.startV, 0.5 * a.accel, a.startPos, a.axesR)
  }

  function CruisePiece(a: Trapezoid, t: real, p: Coord): Entry {
    Entry(t, a.cruiseT, a.cruiseV, 0.0, p, a.axesR)
  }

  function DecelPiece(a: Trapezoid, t: real, p: Coord): Entry {
    Entry(t, a.decelT, a.cruiseV, -0.5 * a.accel, p, a.axesR)
  }

  /** The up to three entries that trapq_append creates. */
  function Pieces(a: Trapezoid): (ms: seq<Entry>)
    ensures |ms| <= 3
  {
    var ms := if a.accelT != 0.0 then [AccelPiece(a)] else [];
    var t, p := if ms == [] then a.printTime else a.printTime + a.accelT,
                if ms == [] then a.startPos else AccelPiece(a).At(a.accelT);
    var ms' := if a.cruiseT != 0.0 then ms + [CruisePiece(a, t, p)] else ms;
    var t', p' := if a.cruiseT != 0.0 then t + a.cruiseT else t,
                  if a.cruiseT != 0.0 then CruisePiece(a, t, p).At(a.cruiseT) else p;
    if a.decelT != 0.0 then ms' + [DecelPiece(a, t', p')] else ms'
  }

  /** trapq_append */
  function Append(q: Timeline, a: Trapezoid): Timeline {
    AddAll(q, Pieces(a))
  }

  /** How many entries at the front have ended by `printTime`. */
  function Expired(moves: seq<Entry>, printTime: real): (n: nat)
    ensures n <= |moves|
    ensures forall i :: 0 <= i < n ==> moves[i].EndTime() <= printTime
    ensures n < |moves| ==> moves[n].EndTime() > printTime
  {
    if moves == [] || moves[0].EndTime() > printTime then 0 else 1 + Expired(moves[1..], printTime)
  }

  predicate Moving(m: Entry) {
    m.startV != 0.0 || m.halfAccel != 0.0
  }

  /** Expired entries join the history, newest first; filler entries are dropped. */
  function Archive(expired: seq<Entry>, history: seq<Entry>): seq<Entry> {
    if expired == [] then history
    else Archive(expired[1..], if Moving(expired[0]) then [expired[0]] + history else history)
  }

  /** The oldest entries leave the history, but never the newest one. */
  function Prune(history: seq<Entry>, clearTime: real): seq<Entry> {
    if |history| <= 1 || history[|history| - 1].EndTime() > clearTime then history
    else Prune(history[..|history| - 1], clearTime)
  }

  /** trapq_finalize_moves */
  function Finalize(q: Timeline, printTime: real, clearTime: real): Timeline {
    var n := Expired(q.moves, printTime);
    Timeline(q.moves[n..],
             if n == |q.moves| then q.tail.(printTime := NEVER_TIME) else q.tail,
             Prune(Archive(q.moves[..n], q.history), clearTime))
  }

  /** trapq_check_sentinels */
  function CheckSentinels(q: Timeline): Timeline {
    if q.tail.printTime != 0.0 then q
    else if q.moves == [] then q.(tail := q.tail.(printTime := NEVER_TIME))
    else
      var m := Last(q.moves);
      q.(tail := q.tail.(printTime := m.EndTime(), startPos := m.EndPos()))
  }

  // ----- the timeline has no holes -----

  /** Every entry starts exactly when the previous one ends. */
  predicate Gapless(moves: seq<Entry>) {
    forall i :: 0 < i < |moves| ==> Abuts(moves, i)
  }

  predicate Abuts(moves: seq<Entry>, i: int)
    requires 0 < i < |moves|
  {
    moves[i].printTime == moves[i - 1].EndTime()
  }

  predicate AllForward(moves: seq<Entry>) {
    forall i :: 0 <= i < |moves| ==> 0.0 <= moves[i].printTime && 0.0 < moves[i].moveT
  }

  /** Only a filler can start at time 0, and a filler is never the last entry. */
  predicate Forward(moves: seq<Entry>) {
    AllForward(moves) && (moves != [] ==> Last(moves).printTime != 0.0)
  }

  /** The tail sentinel is either stale (0), idle (never), or stands exactly at the end of the motion. */
  predicate TailKept(q: Timeline) {
    && q.tail.moveT == NEVER_TIME && !Moving(q.tail) && q.tail.axesR == ORIGIN
    && (q.moves == [] ==> q.tail.printTime == NEVER_TIME)
    && (q.moves != [] ==> q.tail.printTime == 0.0
                          || (q.tail.printTime == Last(q.moves).EndTime() && q.tail.startPos == Last(q.moves).EndPos()))
  }

  predicate Sound(q: Timeline) {
    Gapless(q.moves) && Forward(q.moves) && TailKept(q)
  }

  /** A moment that trapq_add_move can take: positive, and not before the queued motion ends. */
  predicate CanFollow(moves: seq<Entry>, t: real) {
    0.0 < t && (moves != [] ==> Last(moves).EndTime() <= t)
  }

  lemma GaplessExtend(ms: seq<Entry>, m: Entry)
    ensures Gapless(ms + [m]) <==> Gapless(ms) && (ms == [] || Last(ms).EndTime() == m.printTime)
  {
    var n := ms + [m];
    forall i | 0 < i < |ms| ensures Abuts(ms, i) <==> Abuts(n, i) {
    }
    if ms != [] {
      assert Abuts(n, |ms|) <==> Last(ms).EndTime() == m.printTime;
    }
    if Gapless(n) {
      forall i | 0 < i < |ms| ensures Abuts(ms, i) {
        assert Abuts(n, i);
      }
    }
  }

  lemma LastForward(moves: seq<Entry>)
    requires AllForward(moves)
    ensures 0.0 <= Last(moves).printTime && 0.0 <= Last(moves).moveT
  {
    if moves != [] {
      var n := |moves| - 1;
      assert 0.0 <= moves[n].printTime && 0.0 < moves[n].moveT;
    }
  }

  /** A filler starts where the motion ends and ends where m starts. */
  lemma FillerFits(prev: Entry, m: Entry)
    requires 0.0 <= prev.printTime && 0.0 <= prev.moveT && Gap(prev, m)
    ensures var f := Filler(prev, m);
            && f.EndTime() == m.printTime && 0.0 < f.moveT && 0.0 <= f.printTime
            && (prev.printTime != 0.0 ==> f.printTime == prev.EndTime())
  {
  }

  lemma FilledGapless(moves: seq<Entry>, m: Entry)
    requires Gapless(moves) && Forward(moves) && Gap(Last(moves), m)
    ensures Gapless(Filled(moves, m)) && Last(Filled(moves, m)).EndTime() == m.printTime
  {
    hide Gapless, Forward, Filler, Gap, Last, Entry.EndTime;
    ForwardIsAll(moves);
    LastForward(moves);
    FillerFits(Last(moves), m);
    FilledWith(moves, Filler(Last(moves), m), m.printTime);
  }

  lemma ForwardIsAll(moves: seq<Entry>)
    requires Forward(moves)
    ensures AllForward(moves) && (moves != [] ==> Last(moves).printTime != 0.0)
  {
  }

  /** One more entry that starts where the motion ends. */
  lemma FilledWith(moves: seq<Entry>, f: Entry, end: real)
    requires Gapless(moves) && f.EndTime() == end && (moves != [] ==> f.printTime == Last(moves).EndTime())
    ensures Gapless(moves + [f]) && Last(moves + [f]).EndTime() == end
  {
    hide Gapless, Entry.EndTime;
    GaplessExtend(moves, f);
  }

  /** Exactly which append times keep the timeline gapless: any on an idle queue, otherwise those not
    * before the end of the motion already queued. */
  lemma GaplessIff(q: Timeline, m: Entry)
    requires Gapless(q.moves) && Forward(q.moves)
    ensures Gapless(AddMove(q, m).moves) <==> (q.moves == [] || Last(q.moves).EndTime() <= m.printTime)
  {
    GaplessExtend(Filled(q.moves, m), m);
    if Gap(Last(q.moves), m) {
      FilledGapless(q.moves, m);
    }
  }

  lemma ForwardExtend(moves: seq<Entry>, m: Entry)
    requires AllForward(moves) && 0.0 <= m.printTime && 0.0 < m.moveT
    ensures AllForward(moves + [m])
  {
  }

  lemma FilledForward(moves: seq<Entry>, m: Entry)
    requires AllForward(moves)
    ensures AllForward(Filled(moves, m))
  {
    if Gap(Last(moves), m) {
      LastForward(moves);
      FillerFits(Last(moves), m);
      ForwardExtend(moves, Filler(Last(moves), m));
    }
  }

  lemma StaleTailKept(q: Timeline)
    requires q.moves != [] && q.tail.printTime == 0.0
    requires q.tail.moveT == NEVER_TIME && !Moving(q.tail) && q.tail.axesR == ORIGIN
    ensures TailKept(q)
  {
  }

  lemma AddMoveSound(q: Timeline, m: Entry)
    requires Sound(q) && 0.0 < m.moveT && CanFollow(q.moves, m.printTime)
    ensures Sound(AddMove(q, m))
  {
    GaplessIff(q, m);
    FilledForward(q.moves, m);
    ForwardExtend(Filled(q.moves, m), m);
    StaleTailKept(AddMove(q, m));
  }

  // ----- one trapq_append -----

  /** A trapezoid that set_junction can produce. */
  predicate Drivable(a: Trapezoid) {
    && 0.0 <= a.accelT && 0.0 <= a.cruiseT && 0.0 <= a.decelT
    && 0.0 < a.accelT + a.cruiseT + a.decelT
    && a.startV + a.accel * a.accelT == a.cruiseV
  }

  function Duration(a: Trapezoid): real {
    a.accelT + a.cruiseT + a.decelT
  }

  function EndV(a: Trapezoid): real {
    a.cruiseV - a.accel * a.decelT
  }

  /** Distance covered by the three parts at their average speeds. */
  function Length(a: Trapezoid): real {
    ((a.startV + a.cruiseV) * 0.5) * a.accelT + a.cruiseV * a.cruiseT + ((EndV(a) + a.cruiseV) * 0.5) * a.decelT
  }


  /** Time, place and speed. */
  datatype Moment = Moment(t: real, p: Coord, v: real)

  function StartOf(m: Entry): Moment {
    Moment(m.printTime, m.startPos, m.startV)
  }

  function EndOf(m: Entry): Moment {
    Moment(m.EndTime(), m.EndPos(), m.EndSpeed())
  }

  /** Entry i starts when, where and as fast as the previous one ends. */
  predicate Meets(ms: seq<Entry>, i: int)
    requires 0 < i < |ms|
  {
    StartOf(ms[i]) == EndOf(ms[i - 1])
  }

  /** `ms` is a smooth motion from one moment to another. */
  predicate Leads(ms: seq<Entry>, from: Moment, to: Moment) {
    && (forall i :: 0 <= i < |ms| ==> 0.0 < ms[i].moveT)
    && (forall i :: 0 < i < |ms| ==> Meets(ms, i))
    && (if ms == [] then from == to else StartOf(ms[0]) == from && EndOf(ms[|ms| - 1]) == to)
  }

  lemma {:induction false} LeadsFrom(a: seq<Entry>, b: seq<Entry>, from: Moment, mid: Moment, to: Moment)
    requires Leads(a, from, mid) && Leads(b, mid, to)
    ensures Leads(a + b, from, to)
  {
    var ms := a + b;
    forall i | 0 < i < |ms| ensures Meets(ms, i) {
      if i < |a| {
        assert Meets(a, i);
      } else if i > |a| {
        assert Meets(b, i - |a|);
      }
    }
    if b != [] {
      assert ms[|ms| - 1] == b[|b| - 1];
    }
  }

  /** One of the three parts, left out when it takes no time. */
  function Part(m: Entry): seq<Entry> {
    if m.moveT != 0.0 then [m] else []
  }

  lemma NoTime(m: Entry)
    requires m.moveT == 0.0
    ensures EndOf(m) == StartOf(m)
  {
    assert m.Distance(0.0) == 0.0;
  }

  lemma PartLeads(m: Entry)
    requires 0.0 <= m.moveT
    ensures Leads(Part(m), StartOf(m), EndOf(m))
  {
    if m.moveT == 0.0 {
      NoTime(m);
    }
  }

  /** Where the three parts begin, whether or not they take any time. */
  function Accel(a: Trapezoid): Entry { AccelPiece(a) }

  function Cruise(a: Trapezoid): Entry { CruisePiece(a, Accel(a).EndTime(), Accel(a).EndPos()) }

  function Decel(a: Trapezoid): Entry { DecelPiece(a, Cruise(a).EndTime(), Cruise(a).EndPos()) }

  lemma PiecesAreParts(a: Trapezoid)
    ensures Pieces(a) == Part(Accel(a)) + Part(Cruise(a)) + Part(Decel(a))
  {
    if a.accelT == 0.0 {
      NoTime(Accel(a));
    }
    if a.cruiseT == 0.0 {
      NoTime(Cruise(a));
    }
  }

  lemma AlongTwice(p: Coord, r: Coord, d: real, e: real)
    ensures Along(Along(p, r, d), r, e) == Along(p, r, d + e)
  {
  }

  /** A ramp covers the distance of its average speed. */
  lemma RampDistance(m: Entry, w: real)
    requires m.EndSpeed() == w
    ensures m.Distance(m.moveT) == ((m.startV + w) * 0.5) * m.moveT
  {
    assert m.startV + m.halfAccel * m.moveT == (m.startV + w) * 0.5;
  }

  lemma PartSpeeds(a: Trapezoid)
    requires Drivable(a)
    ensures Accel(a).EndSpeed() == a.cruiseV == Cruise(a).EndSpeed() && Decel(a).EndSpeed() == EndV(a)
  {
    Halved(a.accel, a.accelT, AccelPiece(a).halfAccel);
    Halved(-a.accel, a.decelT, DecelPiece(a, 0.0, ORIGIN).halfAccel);
    Negated(a.accel, a.decelT);
  }

  lemma Halved(accel: real, t: real, half: real)
    requires half == 0.5 * accel
    ensures 2.0 * half * t == accel * t
  {
    assert 2.0 * half == accel;
  }

  lemma Negated(x: real, t: real)
    ensures (-x) * t == -(x * t)
  {
  }

  lemma PartDistances(a: Trapezoid)
    requires Drivable(a)
    ensures Accel(a).Distance(a.accelT) + Cruise(a).Distance(a.cruiseT) + Decel(a).Distance(a.decelT) == Length(a)
  {
    PartSpeeds(a);
    RampDistance(Accel(a), a.cruiseV);
    RampDistance(Cruise(a), a.cruiseV);
    RampDistance(Decel(a), EndV(a));
  }

  lemma PartsEnd(a: Trapezoid)
    requires Drivable(a)
    ensures EndOf(Decel(a)) == Moment(a.printTime + Duration(a), Along(a.startPos, a.axesR, Length(a)), EndV(a))
  {
    var d, e, f := Accel(a).Distance(a.accelT), Cruise(a).Distance(a.cruiseT), Decel(a).Distance(a.decelT);
    PartSpeeds(a);
    PartDistances(a);
    AlongTwice(a.startPos, a.axesR, d, e);
    AlongTwice(a.startPos, a.axesR, d + e, f);
  }

  lemma PartsLead(a: Trapezoid)
    requires Drivable(a)
    ensures Leads(Pieces(a), StartOf(Accel(a)), EndOf(Decel(a)))
  {
    PiecesAreParts(a);
    PartSpeeds(a);
    PartLeads(Accel(a));
    PartLeads(Cruise(a));
    PartLeads(Decel(a));
    LeadsFrom(Part(Accel(a)), Part(Cruise(a)), StartOf(Accel(a)), StartOf(Cruise(a)), EndOf(Cruise(a)));
    LeadsFrom(Part(Accel(a)) + Part(Cruise(a)), Part(Decel(a)), StartOf(Accel(a)), StartOf(Decel(a)), EndOf(Decel(a)));
  }

  /** One trapq_append is a smooth motion from its start to exactly `Length` further along its axis,
    * which it leaves with the speed set_junction asked for - also when parts take no time. */
  lemma AppendLeads(a: Trapezoid)
    requires Drivable(a)
    ensures Pieces(a) != []
    ensures Leads(Pieces(a), Moment(a.printTime, a.startPos, a.startV),
                  Moment(a.printTime + Duration(a), Along(a.startPos, a.axesR, Length(a)), EndV(a)))
  {
    PiecesAreParts(a);
    PartsLead(a);
    PartsEnd(a);
  }

  lemma {:induction false} AddAllMoves(q: Timeline, ms: seq<Entry>, from: Moment, to: Moment)
    requires ms != [] && Leads(ms, from, to)
    ensures AddAll(q, ms).moves == Filled(q.moves, ms[0]) + ms
    ensures AddAll(q, ms).tail == q.tail.(printTime := 0.0) && AddAll(q, ms).history == q.history
    decreases |ms|
  {
    var n := |ms| - 1;
    if n == 0 {
      assert ms[..0] == [] && ms == [ms[0]];
    } else {
      LeadsButLast(ms, from, to);
      AddAllMoves(q, ms[..n], from, EndOf(ms[n - 1]));
      assert ms == ms[..n] + [ms[n]];
      assert Filled(AddAll(q, ms[..n]).moves, ms[n]) == AddAll(q, ms[..n]).moves;
    }
  }

  /** Appending keeps the timeline gapless, whatever was queued, when the append time can follow it. */
  lemma AppendSound(q: Timeline, a: Trapezoid)
    requires Sound(q) && Drivable(a) && CanFollow(q.moves, a.printTime)
    ensures Sound(Append(q, a))
    ensures Last(Append(q, a).moves).EndTime() == a.printTime + Duration(a)
  {
    AppendLeads(a);
    AddAllSound(q, Pieces(a), Moment(a.printTime, a.startPos, a.startV),
                Moment(a.printTime + Duration(a), Along(a.startPos, a.axesR, Length(a)), EndV(a)));
  }

  lemma LeadsButLast(ms: seq<Entry>, from: Moment, to: Moment)
    requires |ms| > 1 && Leads(ms, from, to)
    ensures Leads(ms[..|ms| - 1], from, EndOf(ms[|ms| - 2]))
    ensures ms[|ms| - 1].printTime == ms[|ms| - 2].EndTime() && 0.0 < ms[|ms| - 1].moveT
    ensures 0.0 < from.t ==> 0.0 < ms[|ms| - 1].printTime
  {
    var n := |ms| - 1;
    assert Meets(ms, n);
    LaterStarts(ms, from, to, n);
    forall i | 0 < i < n ensures Meets(ms[..n], i) {
      assert Meets(ms, i);
    }
  }

  lemma {:induction false} LaterStarts(ms: seq<Entry>, from: Moment, to: Moment, i: nat)
    requires Leads(ms, from, to) && i < |ms|
    ensures from.t <= ms[i].printTime
  {
    if 0 < i {
      LaterStarts(ms, from, to, i - 1);
      assert Meets(ms, i);
    }
  }

  lemma {:induction false} AddAllSound(q: Timeline, ms: seq<Entry>, from: Moment, to: Moment)
    requires Sound(q) && ms != [] && Leads(ms, from, to) && CanFollow(q.moves, from.t)
    ensures Sound(AddAll(q, ms)) && Last(AddAll(q, ms).moves) == ms[|ms| - 1]
    decreases |ms|
  {
    var n := |ms| - 1;
    if n == 0 {
      assert AddAll(q, ms[..n]) == q;
      AddMoveSound(q, ms[0]);
    } else {
      LeadsButLast(ms, from, to);
      AddAllSound(q, ms[..n], from, EndOf(ms[n - 1]));
      AddMoveSound(AddAll(q, ms[..n]), ms[n]);
    }
  }

  lemma FinalizeSound(q: Timeline, printTime: real, clearTime: real)
    requires Sound(q)
    ensures Sound(Finalize(q, printTime, clearTime))
  {
    var n := Expired(q.moves, printTime);
    forall i | 0 < i < |q.moves[n..]| ensures Abuts(q.moves[n..], i) {
      assert Abuts(q.moves, n + i);
    }
  }

  lemma CheckSentinelsSound(q: Timeline)
    requires Sound(q)
    ensures Sound(CheckSentinels(q)) && CheckSentinels(q).tail.printTime != 0.0
  {
  }

  // ----- whole runs -----

  datatype Event =
    | Appended(a: Trapezoid)
    | Finalized(printTime: real, clearTime: real)
    | Checked

  function Step(q: Timeline, e: Event): Timeline {
    match e
    case Appended(a) => Append(q, a)
    case Finalized(t, c) => Finalize(q, t, c)
    case Checked => CheckSentinels(q)
  }

  function Run(es: seq<Event>): Timeline {
    if es == [] then EMPTY else Step(Run(es[..|es| - 1]), es[|es| - 1])
  }

  /** When the last append of a run ends. */
  function Horizon(es: seq<Event>): real {
    if es == [] then 0.0
    else
      match es[|es| - 1]
      case Appended(a) => a.printTime + Duration(a)
      case _ => Horizon(es[..|es| - 1])
  }

  /** Appends are drivable and come at positive, non-decreasing times. */
  predicate Ordered(es: seq<Event>) {
    es != [] ==>
      && Ordered(es[..|es| - 1])
      && var e := es[|es| - 1];
         e.Appended? ==> Drivable(e.a) && 0.0 < e.a.printTime && Horizon(es[..|es| - 1]) <= e.a.printTime
  }

  /** After any run of append, finalize and check_sentinels, in any order, the timeline has no hole. */
  lemma {:induction false} RunGapless(es: seq<Event>)
    requires Ordered(es)
    ensures Sound(Run(es))
    ensures Run(es).moves != [] ==> Last(Run(es).moves).EndTime() <= Horizon(es)
  {
    if es != [] {
      var prev := es[..|es| - 1];
      RunGapless(prev);
      match es[|es| - 1]
      case Appended(a) => AppendSound(Run(prev), a);
      case Finalized(t, c) => FinalizeSound(Run(prev), t, c);
      case Checked => CheckSentinelsSound(Run(prev));
    }
  }
}
