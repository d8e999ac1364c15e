/** Station navigation: searches over the table of skipped stations, forward to the terminus and backward around
  * the line.  Station numbers are unsigned bytes. */
module Stations {
  const MAX_STATION_NUMBER := 32
  const BYTE := 256

  type SkipTable = t: seq<int> | |t| == MAX_STATION_NUMBER witness seq(MAX_STATION_NUMBER, _ => 1)

  predicate InTable(r: int) {
    0 <= r < MAX_STATION_NUMBER
  }

  predicate IsStation(r: int) {
    1 <= r < MAX_STATION_NUMBER
  }

  predicate IsByte(r: int) {
    0 <= r < BYTE
  }

  /** The train stops there: the effective flag is not zero. */
  predicate Open(t: SkipTable, r: int) {
    InTable(r) && t[r] != 0
  }

  // ---------- Forward: GetNextStationNo, line 3 ----------

  /** One turn of the forward loop: one station on, but never past the terminus. */
  function Toward(r: int, up: bool, ter: int): int {
    if up then
      var q := (r + 1) % BYTE;
      if q >= ter then ter else q
    else
      var q := (r - 1) % BYTE;
      if q <= ter then ter else q
  }

  function TowardBy(r: int, up: bool, ter: int, n: nat): int {
    if n == 0 then r else Toward(TowardBy(r, up, ter, n - 1), up, ter)
  }

  /** The stations that the search may return: from the first one it looks at to the terminus. */
  predicate Ahead(cur: int, up: bool, ter: int, r: int) {
    if up then Toward(cur, up, ter) <= r <= ter else ter <= r <= Toward(cur, up, ter)
  }

  /** r is met before q. */
  predicate Nearer(up: bool, r: int, q: int) {
    if up then r < q else q < r
  }

  ghost predicate IsNext(t: SkipTable, cur: int, up: bool, ter: int, r: int) {
    && Ahead(cur, up, ter, r) && Open(t, r)
    && forall q :: Ahead(cur, up, ter, q) && Nearer(up, q, r) ==> !Open(t, q)
  }

  /** The search starts inside the table, and some station ahead is open. */
  predicate HasNext(t: SkipTable, cur: int, up: bool, ter: int) {
    && InTable(Toward(cur, up, ter))
    && exists r :: 0 <= r < MAX_STATION_NUMBER && Ahead(cur, up, ter, r) && Open(t, r)
  }

  lemma NextIsUnique(t: SkipTable, cur: int, up: bool, ter: int, r: int, q: int)
    requires IsNext(t, cur, up, ter, r) && IsNext(t, cur, up, ter, q)
    ensures r == q
  {
  }

  /** The same turn without the byte arithmetic. */
  function Closer(r: int, up: bool, ter: int): int {
    if up then (if r + 1 < ter then r + 1 else ter) else if r - 1 > ter then r - 1 else ter
  }

  /** Inside the table the bytes do not wrap, except below 0. */
  lemma TowardIsCloser(r: int, up: bool, ter: int)
    requires InTable(r) && IsByte(ter)
    ensures up || r > 0 ==> Toward(r, up, ter) == Closer(r, up, ter)
    ensures !up && r == 0 ==> Toward(r, up, ter) == BYTE - 1
  {
  }

  /** The first n turns end inside the table. */
  ghost predicate Inside(cur: int, up: bool, ter: int, n: nat) {
    forall m: nat :: 1 <= m <= n ==> InTable(TowardBy(cur, up, ter, m))
  }

  /** What the search has reached after n turns, in closed form. */
  lemma {:induction false} TowardByIs(cur: int, up: bool, ter: int, n: nat)
    requires IsByte(cur) && IsByte(ter) && n >= 1 && Inside(cur, up, ter, n)
    ensures var first := Toward(cur, up, ter);
            TowardBy(cur, up, ter, n) ==
            if up then (if first + n - 1 < ter then first + n - 1 else ter)
            else if first - (n - 1) > ter then first - (n - 1) else ter
  {
    if n == 1 {
      assert TowardBy(cur, up, ter, 0) == cur;
    } else {
      TowardByIs(cur, up, ter, n - 1);
      var r := TowardBy(cur, up, ter, n - 1);
      assert InTable(r) && InTable(TowardBy(cur, up, ter, n));
      TowardIsCloser(r, up, ter);
    }
  }

  /** The search looks at an open station after n turns, and at nothing outside the table before. */
  ghost predicate SearchEndsAt(t: SkipTable, cur: int, up: bool, ter: int, n: nat) {
    n >= 1 && Inside(cur, up, ter, n) && Open(t, TowardBy(cur, up, ter, n))
  }

  lemma {:induction false} InsideUpTo(t: SkipTable, cur: int, up: bool, ter: int, r: int, n: nat)
    requires IsByte(cur) && IsByte(ter) && InTable(Toward(cur, up, ter)) && InTable(r) && Ahead(cur, up, ter, r)
    requires n >= 1 && n - 1 <= if up then r - Toward(cur, up, ter) else Toward(cur, up, ter) - r
    ensures Inside(cur, up, ter, n)
  {
    assert TowardBy(cur, up, ter, 0) == cur && TowardBy(cur, up, ter, 1) == Toward(cur, up, ter);
    if n > 1 {
      InsideUpTo(t, cur, up, ter, r, n - 1);
      TowardByIs(cur, up, ter, n - 1);
      TowardIsCloser(TowardBy(cur, up, ter, n - 1), up, ter);
      assert InTable(TowardBy(cur, up, ter, n));
    }
  }

  /** For any bytes the search ends, without leaving the table, if and only if it starts inside and some station
    * ahead is open.  In particular it ends when the terminus is open. */
  lemma ForwardSearchEndsIff(t: SkipTable, cur: int, up: bool, ter: int)
    requires IsByte(cur) && IsByte(ter)
    ensures (exists n: nat :: SearchEndsAt(t, cur, up, ter, n)) <==> HasNext(t, cur, up, ter)
    ensures InTable(Toward(cur, up, ter)) && Open(t, ter) ==> HasNext(t, cur, up, ter)
  {
    assert TowardBy(cur, up, ter, 0) == cur && TowardBy(cur, up, ter, 1) == Toward(cur, up, ter);
    if n: nat :| SearchEndsAt(t, cur, up, ter, n) {
      TowardByIs(cur, up, ter, n);
      assert InTable(TowardBy(cur, up, ter, 1));
      assert Ahead(cur, up, ter, TowardBy(cur, up, ter, n));
    }
    if HasNext(t, cur, up, ter) {
      var r :| 0 <= r < MAX_STATION_NUMBER && Ahead(cur, up, ter, r) && Open(t, r);
      var n: nat := 1 + if up then r - Toward(cur, up, ter) else Toward(cur, up, ter) - r;
      InsideUpTo(t, cur, up, ter, r, n);
      TowardByIs(cur, up, ter, n);
      assert SearchEndsAt(t, cur, up, ter, n);
    }
    if InTable(Toward(cur, up, ter)) {
      assert Ahead(cur, up, ter, ter);
    }
  }

  // ---------- Backward: the cyclic search of AdjustStationNo ----------

  /** One turn of the backward loop; running direction 1 counts down, 2 counts up, anything else stays. */
  function Back(r: int, dir: int): int {
    if dir == 1 then
      var q := (r - 1) % BYTE;
      if q < 1 then MAX_STATION_NUMBER - 1 else q
    else if dir == 2 then
      var q := (r + 1) % BYTE;
      if q > MAX_STATION_NUMBER - 1 then 1 else q
    else r
  }

  /** Counting down from 0, which AdjustStationNo stores at the begin of an open line, wraps to 255; inside the
    * table this is the only way out. */
  lemma BackStaysInTableIff(r: int, dir: int)
    requires InTable(r)
    ensures InTable(Back(r, dir)) <==> !(r == 0 && dir == 1)
  {
  }

  function BackBy(r: int, dir: int, n: nat): int {
    if n == 0 then r else Back(BackBy(r, dir, n - 1), dir)
  }

  /** The first open station met after at least one turn. */
  ghost predicate IsPrevious(t: SkipTable, cur: int, dir: int, r: int) {
    exists n: nat :: FoundAfter(t, cur, dir, r, n)
  }

  ghost predicate FoundAfter(t: SkipTable, cur: int, dir: int, r: int, n: nat) {
    && n >= 1 && r == BackBy(cur, dir, n) && Open(t, r)
    && forall m: nat :: 1 <= m < n ==> !Open(t, BackBy(cur, dir, m))
  }

  predicate AnyOpen(t: SkipTable) {
    exists r :: 1 <= r < MAX_STATION_NUMBER && Open(t, r)
  }

  /** The search starts inside the table and meets an open entry: with a running direction any station, and
    * entry 0 if it starts there; without one, only the entry where it stands. */
  predicate HasPrevious(t: SkipTable, cur: int, dir: int) {
    && InTable(Back(cur, dir))
    && if dir == 1 || dir == 2 then AnyOpen(t) || Open(t, Back(cur, dir)) else Open(t, cur)
  }

  lemma {:induction false} BackByStays(cur: int, dir: int, n: nat)
    requires IsStation(cur)
    ensures IsStation(BackBy(cur, dir, n)) && (dir != 1 && dir != 2 ==> BackBy(cur, dir, n) == cur)
  {
    if n > 0 {
      BackByStays(cur, dir, n - 1);
    }
  }

  lemma BackIs(r: int, dir: int)
    requires IsStation(r)
    ensures dir == 1 ==> Back(r, dir) == if r == 1 then MAX_STATION_NUMBER - 1 else r - 1
    ensures dir == 2 ==> Back(r, dir) == if r == MAX_STATION_NUMBER - 1 then 1 else r + 1
  {
  }

  /** Up to one full turn around the line, in closed form. */
  lemma {:induction false} BackByIs(cur: int, dir: int, n: nat)
    requires IsStation(cur) && n < MAX_STATION_NUMBER
    ensures dir == 1 ==> BackBy(cur, dir, n) == if n < cur then cur - n else cur - n + MAX_STATION_NUMBER - 1
    ensures dir == 2 ==>
      BackBy(cur, dir, n) == if cur + n < MAX_STATION_NUMBER then cur + n else cur + n - MAX_STATION_NUMBER + 1
  {
    if n > 0 {
      BackByIs(cur, dir, n - 1);
      BackByStays(cur, dir, n - 1);
      BackIs(BackBy(cur, dir, n - 1), dir);
    }
  }

  /** The number of turns that lead to a given station. */
  function Turns(cur: int, dir: int, r: int): (n: int)
    requires IsStation(cur) && IsStation(r)
    ensures 1 <= n < MAX_STATION_NUMBER
  {
    if dir == 1 then if r < cur then cur - r else cur - r + MAX_STATION_NUMBER - 1
    else if dir == 2 then if cur < r then r - cur else r - cur + MAX_STATION_NUMBER - 1
    else 1
  }

  lemma TurnsReach(cur: int, dir: int, r: int)
    requires IsStation(cur) && IsStation(r) && (dir == 1 || dir == 2 || r == cur)
    ensures BackBy(cur, dir, Turns(cur, dir, r)) == r
  {
    BackByIs(cur, dir, Turns(cur, dir, r));
    BackByStays(cur, dir, 1);
  }

  lemma {:induction false} BackByShift(cur: int, dir: int, n: nat)
    ensures BackBy(cur, dir, n + 1) == BackBy(Back(cur, dir), dir, n)
  {
    if n > 0 {
      BackByShift(cur, dir, n - 1);
    } else {
      assert BackBy(cur, dir, 0) == cur;
    }
  }

  /** A search that starts inside the table stays there. */
  lemma BackStaysInside(cur: int, dir: int, n: nat)
    requires IsByte(cur) && InTable(Back(cur, dir)) && n >= 1
    ensures InTable(BackBy(cur, dir, n))
    ensures n >= 2 && (dir == 1 || dir == 2) ==> IsStation(BackBy(cur, dir, n))
    ensures dir != 1 && dir != 2 ==> BackBy(cur, dir, n) == cur
  {
    var first := Back(cur, dir);
    BackByShift(cur, dir, n - 1);
    if first > 0 {
      BackByStays(first, dir, n - 1);
    } else {
      FromZero(dir, n - 1);
    }
  }

  lemma {:induction false} FromZero(dir: int, n: nat)
    ensures dir == 2 ==> if n == 0 then BackBy(0, dir, n) == 0 else IsStation(BackBy(0, dir, n))
    ensures dir != 1 && dir != 2 ==> BackBy(0, dir, n) == 0
  {
    if n > 0 {
      FromZero(dir, n - 1);
    }
  }

  /** The search looks at an open entry after n turns, and at nothing outside the table before. */
  ghost predicate BackEndsAt(t: SkipTable, cur: int, dir: int, n: nat) {
    n >= 1 && Open(t, BackBy(cur, dir, n)) && forall m: nat :: 1 <= m <= n ==> InTable(BackBy(cur, dir, m))
  }

  lemma EndsInside(t: SkipTable, cur: int, dir: int, n: nat)
    requires IsByte(cur) && InTable(Back(cur, dir)) && n >= 1 && Open(t, BackBy(cur, dir, n))
    ensures BackEndsAt(t, cur, dir, n)
  {
    forall m: nat | 1 <= m <= n
      ensures InTable(BackBy(cur, dir, m))
    {
      BackStaysInside(cur, dir, m);
    }
  }

  lemma ReachFrom(t: SkipTable, cur: int, dir: int, r: int) returns (n: nat)
    requires IsByte(cur) && InTable(Back(cur, dir)) && (dir == 1 || dir == 2) && IsStation(r) && Open(t, r)
    ensures BackEndsAt(t, cur, dir, n)
  {
    var first := Back(cur, dir);
    if first > 0 {
      n := 1 + Turns(first, dir, r);
      TurnsReach(first, dir, r);
      BackByShift(cur, dir, n - 1);
    } else {
      assert dir == 2 && Back(0, 2) == 1;
      n := 2 + Turns(1, dir, r);
      TurnsReach(1, dir, r);
      BackByShift(0, dir, n - 2);
      BackByShift(cur, dir, n - 1);
    }
    EndsInside(t, cur, dir, n);
  }

  /** For any byte the search ends, without leaving the table, if and only if it starts inside and meets an open
    * entry: from a station, any open one. */
  lemma BackwardSearchEndsIff(t: SkipTable, cur: int, dir: int)
    requires IsByte(cur)
    ensures (exists n: nat :: BackEndsAt(t, cur, dir, n)) <==> HasPrevious(t, cur, dir)
    ensures IsStation(cur) && (dir == 1 || dir == 2) ==> (HasPrevious(t, cur, dir) <==> AnyOpen(t))
  {
    assert BackBy(cur, dir, 0) == cur && BackBy(cur, dir, 1) == Back(cur, dir);
    if n: nat :| BackEndsAt(t, cur, dir, n) {
      assert InTable(BackBy(cur, dir, 1));
      BackStaysInside(cur, dir, n);
    }
    if HasPrevious(t, cur, dir) {
      var n := EndOfSearch(t, cur, dir);
    }
    if IsStation(cur) {
      BackByStays(cur, dir, 1);
    }
  }

  lemma EndOfSearch(t: SkipTable, cur: int, dir: int) returns (n: nat)
    requires IsByte(cur) && HasPrevious(t, cur, dir)
    ensures BackEndsAt(t, cur, dir, n)
  {
    assert BackBy(cur, dir, 0) == cur && BackBy(cur, dir, 1) == Back(cur, dir);
    if Open(t, Back(cur, dir)) {
      n := 1;
      EndsInside(t, cur, dir, 1);
    } else {
      var r :| 1 <= r < MAX_STATION_NUMBER && Open(t, r);
      n := ReachFrom(t, cur, dir, r);
    }
  }

  lemma PreviousIsUnique(t: SkipTable, cur: int, dir: int, r: int, q: int)
    requires IsPrevious(t, cur, dir, r) && IsPrevious(t, cur, dir, q)
    ensures r == q
  {
  }

  // ---------- The two searches in plain terms ----------

  /** From a station before the terminus, the next station is the first one toward it, the terminus included, at which
    * the train stops; from the terminus on, it is the terminus, if the train stops there. */
  lemma NextInPlainTerms(t: SkipTable, cur: int, ter: int, r: int)
    requires IsStation(cur) && IsStation(ter)
    ensures cur < ter ==>
              (IsNext(t, cur, true, ter, r) <==>
                 cur < r <= ter && t[r] != 0 && forall q :: cur < q < r ==> t[q] == 0)
    ensures cur >= ter ==> (IsNext(t, cur, true, ter, r) <==> r == ter && t[ter] != 0)
    ensures cur > ter ==>
              (IsNext(t, cur, false, ter, r) <==>
                 ter <= r < cur && t[r] != 0 && forall q :: r < q < cur ==> t[q] == 0)
    ensures cur <= ter ==> (IsNext(t, cur, false, ter, r) <==> r == ter && t[ter] != 0)
  {
    TowardIsCloser(cur, true, ter);
    TowardIsCloser(cur, false, ter);
    if cur < ter && IsNext(t, cur, true, ter, r) {
      forall q | cur < q < r
        ensures t[q] == 0
      {
        assert Ahead(cur, true, ter, q) && Nearer(true, q, r);
      }
    }
    if cur > ter && IsNext(t, cur, false, ter, r) {
      forall q | r < q < cur
        ensures t[q] == 0
      {
        assert Ahead(cur, false, ter, q) && Nearer(false, q, r);
      }
    }
  }

  /** Counting down, the search goes to the nearest lower station at which the train stops, and if there is none, around
    * the line to the highest one; counting up it is the other way round; without a direction it stays. */
  lemma PreviousInPlainTerms(t: SkipTable, cur: int, r: int)
    requires IsStation(cur)
    ensures IsPrevious(t, cur, 1, r) ==>
              && IsStation(r) && t[r] != 0
              && if r < cur then forall q :: r < q < cur ==> t[q] == 0
                 else forall q :: 1 <= q < cur || r < q < MAX_STATION_NUMBER ==> t[q] == 0
    ensures IsPrevious(t, cur, 2, r) ==>
              && IsStation(r) && t[r] != 0
              && if cur < r then forall q :: cur < q < r ==> t[q] == 0
                 else forall q :: cur < q < MAX_STATION_NUMBER || 1 <= q < r ==> t[q] == 0
    ensures IsPrevious(t, cur, 0, r) ==> r == cur && t[cur] != 0
  {
    if IsPrevious(t, cur, 1, r) {
      PassedAreClosed(t, cur, 1, r);
    }
    if IsPrevious(t, cur, 2, r) {
      PassedAreClosed(t, cur, 2, r);
    }
    if n: nat :| FoundAfter(t, cur, 0, r, n) {
      BackByStays(cur, 0, n);
    }
  }

  /** Every station that is reached in fewer turns is closed. */
  lemma PassedAreClosed(t: SkipTable, cur: int, dir: int, r: int)
    requires IsStation(cur) && (dir == 1 || dir == 2) && IsPrevious(t, cur, dir, r)
    ensures IsStation(r) && t[r] != 0
    ensures forall q :: IsStation(q) && Turns(cur, dir, q) < Turns(cur, dir, r) ==> t[q] == 0
  {
    var n: nat :| FoundAfter(t, cur, dir, r, n);
    BackByStays(cur, dir, n);
    forall q | IsStation(q) && Turns(cur, dir, q) < Turns(cur, dir, r)
      ensures t[q] == 0
    {
      TurnsReach(cur, dir, q);
      TurnsReach(cur, dir, r);
      if n < Turns(cur, dir, r) {
        BackByIs(cur, dir, n);
      }
    }
  }

  // ---------- Forward and backward are inverse ----------

  function Direction(up: bool): int {
    if up then 1 else 2
  }

  predicate Before(up: bool, cur: int, ter: int) {
    if up then cur < ter else ter < cur
  }

  /** From a station that is before the terminus. */
  lemma AheadOfStation(cur: int, up: bool, ter: int, r: int)
    requires IsStation(cur) && IsStation(ter) && Before(up, cur, ter)
    ensures Ahead(cur, up, ter, r) <==> if up then cur < r <= ter else ter <= r < cur
  {
    TowardIsCloser(cur, up, ter);
  }

  /** All that lies between two stations is met on the way back. */
  lemma BetweenOnTheWay(cur: int, up: bool, r: int, m: nat)
    requires IsStation(cur) && IsStation(r) && Before(up, cur, r) && 1 <= m < Turns(r, Direction(up), cur)
    ensures Before(up, cur, BackBy(r, Direction(up), m)) && Before(up, BackBy(r, Direction(up), m), r)
  {
    BackByIs(r, Direction(up), m);
  }

  lemma FoundForward(t: SkipTable, cur: int, up: bool, ter: int, r: int, q: int)
    requires IsStation(cur) && IsStation(ter) && Before(up, cur, ter)
    requires IsNext(t, cur, up, ter, r) && IsPrevious(t, r, Direction(up), q)
    ensures Open(t, cur) ==> q == cur
  {
    AheadOfStation(cur, up, ter, r);
    var n := Turns(r, Direction(up), cur);
    TurnsReach(r, Direction(up), cur);
    forall m: nat | 1 <= m < n
      ensures !Open(t, BackBy(r, Direction(up), m))
    {
      BetweenOnTheWay(cur, up, r, m);
      AheadOfStation(cur, up, ter, BackBy(r, Direction(up), m));
    }
    if Open(t, cur) {
      assert FoundAfter(t, r, Direction(up), cur, n);
      PreviousIsUnique(t, r, Direction(up), q, cur);
    }
  }

  /** Going on to the next station and searching backward from there leads back if and only if the train stops
    * at the original station. */
  lemma BackwardUndoesForwardIff(t: SkipTable, cur: int, up: bool, ter: int, r: int, q: int)
    requires IsStation(cur) && IsStation(ter) && Before(up, cur, ter)
    requires IsNext(t, cur, up, ter, r) && IsPrevious(t, r, Direction(up), q)
    ensures q == cur <==> Open(t, cur)
  {
    FoundForward(t, cur, up, ter, r, q);
    var n: nat :| FoundAfter(t, r, Direction(up), q, n);
  }

  /** Searching backward without going around and then forward leads back if and only if the train stops at the
    * original station. */
  lemma ForwardUndoesBackwardIff(t: SkipTable, r: int, up: bool, ter: int, cur: int, q: int)
    requires IsStation(r) && IsStation(cur) && IsStation(ter)
    requires IsPrevious(t, r, Direction(up), cur) && Before(up, cur, r) && (r == ter || Before(up, r, ter))
    requires IsNext(t, cur, up, ter, q)
    ensures q == r <==> Open(t, r)
  {
    if Open(t, r) {
      var n: nat :| FoundAfter(t, r, Direction(up), cur, n);
      forall k | Ahead(cur, up, ter, k) && Nearer(up, k, r)
        ensures !Open(t, k)
      {
        AheadOfStation(cur, up, ter, k);
        TurnsReach(r, Direction(up), k);
        BackTurnsLess(r, up, cur, k, n);
      }
      AheadOfStation(cur, up, ter, r);
      NextIsUnique(t, cur, up, ter, q, r);
    }
  }

  /** A station between is met in fewer turns than the one behind it. */
  lemma BackTurnsLess(r: int, up: bool, cur: int, k: int, n: nat)
    requires IsStation(r) && IsStation(cur) && n >= 1 && BackBy(r, Direction(up), n) == cur
    requires Before(up, cur, k) && Before(up, k, r)
    ensures Turns(r, Direction(up), k) < n
  {
    if n < MAX_STATION_NUMBER {
      BackByIs(r, Direction(up), n);
    }
  }

  // ---------- The code ----------

  class Navigator {
    const skip: array<int>
    var current: int
    var next: int
    var upOrDown: int
    var begin: int
    var terminal: int
    var cycleLine: int
    var stopOrLeave: int

    ghost predicate Valid()
      reads this
    {
      skip.Length == MAX_STATION_NUMBER
    }

    /** InitStationInformation: every station is open. */
    constructor ()
      ensures Valid() && fresh(skip) && forall r :: IsStation(r) ==> Open(skip[..], r)
    {
      skip := new int[MAX_STATION_NUMBER](_ => 1);
      current, next, upOrDown, begin, terminal, cycleLine, stopOrLeave := 0, 0, 0, 0, 0, 0, 0;
    }

    /** GetNextStationNo for line 3. */
    method GetNextStationNo(cur: int, up: bool, ter: int) returns (ret: int)
      requires skip.Length == MAX_STATION_NUMBER && IsByte(cur) && IsByte(ter)
      requires HasNext(skip[..], cur, up, ter)
      ensures IsNext(skip[..], cur, up, ter, ret)
    {
      ret := cur;
      ret := Advance(ret, up, ter);
      while skip[ret] == 0
        invariant InTable(ret) && Ahead(cur, up, ter, ret)
        invariant forall q :: Ahead(cur, up, ter, q) && Nearer(up, q, ret) ==> !Open(skip[..], q)
        decreases if up then ter - ret else ret - ter
      {
        ghost var r :| 0 <= r < MAX_STATION_NUMBER && Ahead(cur, up, ter, r) && Open(skip[..], r);
        assert Nearer(up, ret, r);
        TowardIsCloser(ret, up, ter);
        ret := Advance(ret, up, ter);
      }
    }

    /** The statements that both the start and every turn of the loop share. */
    static method Advance(r: int, up: bool, ter: int) returns (ret: int)
      requires IsByte(r) && IsByte(ter)
      ensures ret == Toward(r, up, ter)
    {
      if up {
        ret := (r + 1) % BYTE;
        if ret >= ter {
          ret := ter;
        }
      } else {
        ret := (r - 1) % BYTE;
        if ret <= ter {
          ret := ter;
        }
      }
    }

    method StepBack(r: int) returns (ret: int)
      requires IsByte(r)
      ensures ret == Back(r, upOrDown)
    {
      ret := r;
      if upOrDown == 1 {
        ret := (ret - 1) % BYTE;
        if ret < 1 {
          ret := MAX_STATION_NUMBER - 1;
        }
      } else if upOrDown == 2 {
        ret := (ret + 1) % BYTE;
        if ret > MAX_STATION_NUMBER - 1 {
          ret := 1;
        }
      }
    }

    /** The do-while loop of AdjustStationNo. */
    method SearchBack(cur: int) returns (ret: int)
      requires skip.Length == MAX_STATION_NUMBER && IsByte(cur)
      requires HasPrevious(skip[..], cur, upOrDown)
      ensures IsPrevious(skip[..], cur, upOrDown, ret) && InTable(ret)
      ensures IsStation(cur) ==> IsStation(ret)
    {
      ghost var goal := EndOfSearch(skip[..], cur, upOrDown);
      ghost var n: nat := 0;
      ret := cur;
      var again := true;
      while again
        invariant ret == BackBy(cur, upOrDown, n) && n <= goal && IsByte(ret)
        invariant forall m: nat :: 1 <= m < n ==> !Open(skip[..], BackBy(cur, upOrDown, m))
        invariant if again then n == 0 || !Open(skip[..], ret) else n >= 1 && Open(skip[..], ret)
        decreases goal - n, again
      {
        assert n < goal;
        ret := StepBack(ret);
        n := n + 1;
        BackStaysInside(cur, upOrDown, n);
        again := skip[ret] == 0;
      }
      assert FoundAfter(skip[..], cur, upOrDown, ret, n);
      if IsStation(cur) {
        BackByStays(cur, upOrDown, n);
      }
    }

    predicate AtOpenEnd(station: int)
      reads this
    {
      current == station && cycleLine == 0
    }

    /** AdjustStationNo. */
    method AdjustStationNo()
      requires Valid()
      requires stopOrLeave == 0 && !AtOpenEnd(begin) ==>
        IsByte(current) && HasPrevious(skip[..], current, upOrDown)
      modifies this`current, this`next
      ensures stopOrLeave == 0 ==> next == old(current)
      ensures stopOrLeave == 0 && old(current) == begin && cycleLine == 0 ==> current == 0
      ensures stopOrLeave == 0 && !(old(current) == begin && cycleLine == 0) ==>
        IsPrevious(skip[..], old(current), upOrDown, current) && InTable(current)
      ensures stopOrLeave == 1 ==> current == old(current)
      ensures stopOrLeave == 1 ==> next == if old(current) == terminal && cycleLine == 0 then 0 else old(next)
      ensures stopOrLeave != 0 && stopOrLeave != 1 ==> current == old(current) && next == old(next)
    {
      var cur, nextNo := current, next;
      if stopOrLeave == 0 {
        nextNo := cur;
        if cur == begin && cycleLine == 0 {
          cur := 0;
        } else {
          cur := SearchBack(cur);
        }
      } else if stopOrLeave == 1 {
        if cur == terminal && cycleLine == 0 {
          nextNo := 0;
        }
      }
      current := cur;
      next := nextNo;
    }
  }
}
