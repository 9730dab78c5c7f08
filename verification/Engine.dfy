/** The host functions of the script engine that the blackjack script relies on: shuffle and timers. */
module Engine {
  import opened Prelude

  // ----- __platform_shuffle -----

  /** Go's `%`: the remainder takes the sign of the dividend. */
  function GoRemainder(a: int, b: int): (r: int)
    requires b > 0
    ensures -b < r < b
    ensures (a >= 0 ==> r >= 0) && (a <= 0 ==> r <= 0)
  {
    if a >= 0 then a % b else -((-a) % b)
  }

  /** The swap partner for position `i`, from one reading of the clock (any integer). */
  function Partner(clock: seq<int>, i: nat): (j: nat)
    ensures j <= i
  {
    var r := GoRemainder(if clock == [] then 0 else clock[0], i + 1);
    if r < 0 then -r else r
  }

  function Swapped<T>(s: seq<T>, i: nat, j: nat): (r: seq<T>)
    requires i < |s| && j < |s|
    ensures |r| == |s|
    ensures forall k :: 0 <= k < |s| ==> r[k] == if k == i then s[j] else if k == j then s[i] else s[k]
  {
    s[i := s[j]][j := s[i]]
  }

  lemma SwapPermutes<T>(s: seq<T>, i: nat, j: nat)
    requires j <= i < |s|
    ensures multiset(Swapped(s, i, j)) == multiset(s)
  {
    var once := s[i := s[j]];
    assert multiset(once) == multiset(s) - multiset{s[i]} + multiset{s[j]};
    assert once[j] == s[j];
    assert multiset(once[j := s[i]]) == multiset(once) - multiset{s[j]} + multiset{s[i]};
  }

  /** The loop of shuffle from position `i` down to 1, one clock reading an iteration. */
  function ShuffledFrom<T>(s: seq<T>, i: int, clock: seq<int>): (r: seq<T>)
    requires i < |s|
    ensures |r| == |s|
    decreases i
  {
    if i <= 0 then s
    else ShuffledFrom(Swapped(s, i, Partner(clock, i)), i - 1, if clock == [] then [] else clock[1..])
  }

  function Shuffled<T>(s: seq<T>, clock: seq<int>): (r: seq<T>)
    ensures |r| == |s|
  {
    ShuffledFrom(s, |s| - 1, clock)
  }

  /** The argument is read, never written: the swaps happen in a fresh copy. */
  method Shuffle<T>(arr: array<T>, clock: seq<int>) returns (shuffled: array<T>)
    ensures fresh(shuffled)
    ensures shuffled[..] == Shuffled(arr[..], clock)
  {
    shuffled := new T[arr.Length](k requires 0 <= k < arr.Length reads arr => arr[k]);
    ghost var given := arr[..];
    assert shuffled[..] == given;
    var i, left := arr.Length - 1, clock;
    while i > 0
      invariant i < arr.Length
      invariant ShuffledFrom(shuffled[..], i, left) == Shuffled(given, clock)
      invariant arr[..] == given
    {
      var j := GoRemainder(if left == [] then 0 else left[0], i + 1);
      if j < 0 {
        j := -j;
      }
      ghost var before := shuffled[..];
      shuffled[i], shuffled[j] := shuffled[j], shuffled[i];
      assert shuffled[..] == Swapped(before, i, j);
      i, left := i - 1, if left == [] then [] else left[1..];
    }
  }

  /** For any clock readings the result is a permutation of the argument. */
  lemma {:induction false} ShufflePermutes<T>(s: seq<T>, i: int, clock: seq<int>)
    requires i < |s|
    ensures multiset(ShuffledFrom(s, i, clock)) == multiset(s)
    decreases i
  {
    if i > 0 {
      SwapPermutes(s, i, Partner(clock, i));
      ShufflePermutes(Swapped(s, i, Partner(clock, i)), i - 1, if clock == [] then [] else clock[1..]);
    }
  }

  lemma LastOccurs<T>(s: seq<T>, t: seq<T>) returns (j: nat)
    requires |s| == |t| > 0 && multiset(s) == multiset(t)
    ensures j < |s| && s[j] == t[|t| - 1]
  {
    assert t[|t| - 1] in multiset(t);
    j :| 0 <= j < |s| && s[j] == t[|t| - 1];
  }

  lemma DropLast<T>(s: seq<T>, t: seq<T>)
    requires |s| == |t| > 0 && multiset(s) == multiset(t) && s[|s| - 1] == t[|t| - 1]
    ensures multiset(s[..|s| - 1]) == multiset(t[..|t| - 1])
  {
    assert s == s[..|s| - 1] + [s[|s| - 1]];
    assert t == t[..|t| - 1] + [t[|t| - 1]];
    assert multiset(s[..|s| - 1]) == multiset(s) - multiset{s[|s| - 1]};
  }

  /** One swap puts the wanted element at `i` and leaves the rest a permutation problem below `i`. */
  lemma PlaceAt<T>(s: seq<T>, i: nat, t: seq<T>) returns (j: nat)
    requires i < |s| == |t|
    requires forall k :: i < k < |s| ==> s[k] == t[k]
    requires multiset(s[..i + 1]) == multiset(t[..i + 1])
    ensures j <= i
    ensures var next := Swapped(s, i, j);
            && (forall k :: i <= k < |s| ==> next[k] == t[k])
            && multiset(next[..i]) == multiset(t[..i])
  {
    hide Swapped;
    var head, goal := s[..i + 1], t[..i + 1];
    j := LastOccurs(head, goal);
    SwapPermutes(head, i, j);
    var next := Swapped(s, i, j);
    assert next[..i + 1] == Swapped(head, i, j);
    DropLast(next[..i + 1], goal);
    assert next[..i + 1][..i] == next[..i] && goal[..i] == t[..i];
  }

  lemma PartnerOf(j: nat, i: nat, rest: seq<int>)
    requires j <= i
    ensures Partner([j] + rest, i) == j
    ensures ([j] + rest)[1..] == rest
  {
    assert j % (i + 1) == j;
  }

  /** Every permutation is reached by some clock readings: no order is excluded. */
  lemma {:induction false} ShuffleReaches<T>(s: seq<T>, i: int, t: seq<T>) returns (clock: seq<int>)
    requires -1 <= i < |s| == |t|
    requires forall k :: i < k < |s| ==> s[k] == t[k]
    requires multiset(s[..i + 1]) == multiset(t[..i + 1])
    ensures ShuffledFrom(s, i, clock) == t
    decreases i
  {
    if i <= 0 {
      clock := [];
      if i == 0 {
        var j := PlaceAt(s, 0, t);
      }
      assert s == t;
    } else {
      var j := PlaceAt(s, i, t);
      var rest := ShuffleReaches(Swapped(s, i, j), i - 1, t);
      clock := [j] + rest;
      PartnerOf(j, i, rest);
    }
  }

  /** Shuffle can return exactly the permutations of its argument. */
  lemma ShuffleIsExactlyPermutation<T>(s: seq<T>, t: seq<T>)
    ensures (exists clock: seq<int> :: Shuffled(s, clock) == t) <==> multiset(s) == multiset(t)
  {
    if multiset(s) == multiset(t) {
      assert |s| == |multiset(s)| == |multiset(t)| == |t|;
      assert s[..|s|] == s && t[..|t|] == t;
      var clock := ShuffleReaches(s, |s| - 1, t);
      assert Shuffled(s, clock) == t;
    }
    if exists clock: seq<int> :: Shuffled(s, clock) == t {
      var clock: seq<int> :| Shuffled(s, clock) == t;
      ShufflePermutes(s, |s| - 1, clock);
    }
  }

  // ----- The timer table -----

  method AnyOf<T>(s: set<T>) returns (x: T)
    requires s != {}
    ensures x in s
  {
    x :| x in s;
  }

  /** The default sandbox limit on live timers. */
  const MAX_ACTIVE_TIMERS: int := 50

  /** The ids in the engine's timer map and the id counter.  A timer that fires stays in the map. */
  datatype Timers = Timers(live: set<int>, lastId: int)

  const NO_TIMERS := Timers({}, 0)

  datatype TimerOp = Set | ClearTimer(id: int) | Fire(id: int) | TakeUuid | DestroyAll

  /** setTimeout and setInterval: refused when the limit is on and reached. */
  function SetTimer(t: Timers, cap: int): (r: (Timers, Option<int>)) {
    if cap > 0 && |t.live| >= cap then (t, None)
    else (Timers(t.live + {t.lastId + 1}, t.lastId + 1), Some(t.lastId + 1))
  }

  function TimerStep(t: Timers, cap: int, op: TimerOp): Timers {
    match op
    case Set => SetTimer(t, cap).0
    case ClearTimer(id) => t.(live := t.live - {id})
    case Fire(_) => t
    case TakeUuid => t.(lastId := t.lastId + 1)
    case DestroyAll => t.(live := {})
  }

  function TimerRun(cap: int, ops: seq<TimerOp>): Timers {
    if ops == [] then NO_TIMERS
    else TimerStep(TimerRun(cap, ops[..|ops| - 1]), cap, ops[|ops| - 1])
  }

  ghost predicate TimersOk(t: Timers) {
    t.lastId >= 0 && forall id :: id in t.live ==> 1 <= id <= t.lastId
  }

  /** A granted timer takes one slot under an id that no live timer has. */
  lemma SetTimerTakesOneSlot(t: Timers, cap: int)
    requires TimersOk(t)
    ensures SetTimer(t, cap).1.None? <==> cap > 0 && |t.live| >= cap
    ensures var (t', id) := SetTimer(t, cap);
            id.Some? ==> id.value !in t.live && id.value in t'.live && |t'.live| == |t.live| + 1
                         && TimerStep(t', cap, ClearTimer(id.value)).live == t.live
  {
    assert t.lastId + 1 !in t.live;
  }

  /** Over every run of the engine the table respects the limit, and every live id has been handed out. */
  lemma {:induction false} TimerTableBounded(cap: int, ops: seq<TimerOp>)
    ensures TimersOk(TimerRun(cap, ops))
    ensures cap > 0 ==> |TimerRun(cap, ops).live| <= cap
    decreases |ops|
  {
    if ops != [] {
      var before := TimerRun(cap, ops[..|ops| - 1]);
      TimerTableBounded(cap, ops[..|ops| - 1]);
      SetTimerTakesOneSlot(before, cap);
      var op := ops[|ops| - 1];
      if op.ClearTimer? {
        SubsetSize(before.live - {op.id}, before.live);
      }
    }
  }

  /** The id that the `i`-th operation of a run hands out, if it is a granted timer. */
  function Granted(cap: int, ops: seq<TimerOp>, i: nat): Option<int>
    requires i < |ops|
  {
    if ops[i].Set? then SetTimer(TimerRun(cap, ops[..i]), cap).1 else None
  }

  lemma {:induction false} IdsGrow(cap: int, ops: seq<TimerOp>, i: nat)
    requires i < |ops|
    ensures Granted(cap, ops, i).Some? ==> Granted(cap, ops, i).value <= TimerRun(cap, ops).lastId
    decreases |ops|
  {
    var front := ops[..|ops| - 1];
    if i < |front| {
      assert front[..i] == ops[..i];
      IdsGrow(cap, front, i);
    }
  }

  /** Ids are never handed out twice: in every run a later timer gets a larger id. */
  lemma TimerIdsIncrease(cap: int, ops: seq<TimerOp>, i: nat, j: nat)
    requires i < j < |ops|
    requires Granted(cap, ops, i).Some? && Granted(cap, ops, j).Some?
    ensures Granted(cap, ops, i).value < Granted(cap, ops, j).value
  {
    assert ops[..j][..i] == ops[..i];
    IdsGrow(cap, ops[..j], i);
  }

  lemma SubsetSize<T>(a: set<T>, b: set<T>)
    requires a <= b
    ensures |a| <= |b|
  {
    assert b == a + (b - a);
  }

  /** The engine's `timers` map and `timerID` counter. */
  class TimerTable {
    var live: set<int>
    var timerID: int
    const cap: int

    function View(): Timers
      reads this
    {
      Timers(live, timerID)
    }

    constructor (cap: int)
      ensures View() == NO_TIMERS && this.cap == cap
    {
      this.live := {};
      this.timerID := 0;
      this.cap := cap;
    }

    method SetTimeout() returns (id: Option<int>)
      modifies this
      ensures (View(), id) == SetTimer(old(View()), cap)
    {
      if cap > 0 && |live| >= cap {
        return None;
      }
      timerID := timerID + 1;
      live := live + {timerID};
      id := Some(timerID);
    }

    method ClearTimeout(id: int)
      modifies this
      ensures View() == TimerStep(old(View()), cap, ClearTimer(id))
    {
      if id in live {
        live := live - {id};
      }
    }

    method Destroy()
      modifies this
      ensures View() == TimerStep(old(View()), cap, DestroyAll)
    {
      var ids := live;
      while ids != {}
        invariant timerID == old(timerID) && live == ids
        decreases ids
      {
        var id := AnyOf(ids);
        ids := ids - {id};
        live := live - {id};
      }
    }
  }
}
