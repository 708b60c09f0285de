/** The delay between empty pulls of multisim_server_pull_then_push.sv: `int` arithmetic on 32 bits. */
module Backoff {

  /** The value of an expression of type `int`: 32 bits, two's complement. */
  function Int32(n: int): (w: int)
    ensures -0x8000_0000 <= w < 0x8000_0000
    ensures -0x8000_0000 <= n < 0x8000_0000 ==> w == n
  {
    (n + 0x8000_0000) % 0x1_0000_0000 - 0x8000_0000
  }

  /** DPI_DELAY_CYCLES_INACTIVE, DPI_DELAY_CYCLES_ACTIVE and DPI_GRACE_PULLS. */
  datatype Params = Params(inactive: int, active: int, grace: int)

  datatype Pace = Pace(delay: int, grace: int)

  function GetInactiveDpiDelay(currentDelay: int, gracePulls: int, k: Params): int
  {
    var nextDelay :=
      if gracePulls > 0 then currentDelay
      else if currentDelay <= 0 then 1
      else Int32(currentDelay * 4);
    if nextDelay < k.inactive then nextDelay else k.inactive
  }

  /** The registers after a pull. */
  function AfterPull(p: Pace, ok: bool, k: Params): Pace
  {
    if ok then Pace(k.active, k.grace)
    else Pace(GetInactiveDpiDelay(p.delay, p.grace, k), Int32(p.grace - 1))
  }

  function AfterEmpty(p: Pace, n: nat, k: Params): Pace
  {
    if n == 0 then p else AfterPull(AfterEmpty(p, n - 1, k), false, k)
  }

  predicate Sane(k: Params)
  {
    0 <= k.active <= k.inactive < 0x2000_0000 && 0 <= k.grace < 0x8000_0000
  }

  // ---- the ramp, without the machine's arithmetic ----

  function Grow(d: nat, top: nat): nat
  {
    var e := if d == 0 then 1 else 4 * d;
    if e < top then e else top
  }

  function Ramp(d: nat, top: nat, n: nat): (r: nat)
  {
    if n == 0 then d else Grow(Ramp(d, top, n - 1), top)
  }

  /** Empty pulls to get from `d` to `top`. */
  function Steps(d: nat, top: nat): (n: nat)
    decreases top - d
  {
    if d >= top then 0 else 1 + Steps(Grow(d, top), top)
  }

  /** The sum of the delays from `d` on that are below `top`. */
  function RampSum(d: nat, top: nat): nat
    decreases top - d
  {
    if d >= top then 0 else d + RampSum(Grow(d, top), top)
  }

  function Log4(n: nat): nat { if n < 4 then 0 else 1 + Log4(n / 4) }

  function Pow4(n: nat): (p: nat)
    ensures p > 0
  {
    if n == 0 then 1 else 4 * Pow4(n - 1)
  }

  lemma {:induction false} Log4Bound(n: nat)
    ensures n < Pow4(Log4(n) + 1)
  {
    if n >= 4 {
      Log4Bound(n / 4);
    }
  }

  lemma {:induction false} StepsFromPower(k: nat, m: nat, top: nat)
    requires k <= m && top <= Pow4(m)
    ensures Steps(Pow4(k), top) <= m - k
    decreases m - k
  {
    if Pow4(k) < top {
      assert k < m;
      StepsFromPower(k + 1, m, top);
      assert Pow4(k + 1) == 4 * Pow4(k);
      StepsMonotone(Grow(Pow4(k), top), Pow4(k + 1), top);
    }
  }

  lemma {:induction false} StepsMonotone(d: nat, e: nat, top: nat)
    requires d <= e || d >= top
    ensures Steps(e, top) <= Steps(d, top) || d >= top
    ensures d >= top ==> Steps(d, top) == 0
    decreases top - d
  {
    if d < top && e < top {
      StepsMonotone(Grow(d, top), Grow(e, top), top);
    }
  }

  lemma StepsBound(d: nat, top: nat)
    ensures Steps(d, top) <= Log4(top) + 2
  {
    Log4Bound(top);
    StepsFromPower(0, Log4(top) + 1, top);
    if d >= 1 {
      StepsMonotone(1, d, top);
    }
  }

  lemma {:induction false} RampSumBound(d: nat, top: nat)
    requires d < top
    ensures 3 * RampSum(d, top) <= 4 * (top - 1) - (if d == 0 then 0 else d)
    decreases top - d
  {
    if Grow(d, top) < top {
      RampSumBound(Grow(d, top), top);
    }
  }

  lemma {:induction false} RampReaches(d: nat, top: nat, n: nat)
    requires d <= top
    ensures Ramp(d, top, n) <= top
    ensures n + Steps(Ramp(d, top, n), top) == Steps(d, top) || (n >= Steps(d, top) && Ramp(d, top, n) == top)
  {
    if n > 0 {
      RampReaches(d, top, n - 1);
    }
  }

  // ---- the registers follow the ramp ----

  /** Delays below 2^29 are at the top of the ramp within 16 steps. */
  lemma RampIsShort(d: nat, top: nat, n: nat)
    requires d <= top < 0x2000_0000 && n >= 16
    ensures Ramp(d, top, n) == top
  {
    assert Pow4(5) == 0x400;
    assert Pow4(10) == 0x10_0000;
    assert Pow4(15) == 0x4000_0000;
    StepsFromPower(0, 15, top);
    if d >= 1 {
      StepsMonotone(1, d, top);
    }
    RampReaches(d, top, n);
  }

  /** After `n` empty pulls the delay is ACTIVE during the grace period, and then on the ramp, until
      the ramp is at its top, where it stays for ever: even when the count of grace pulls wraps. */
  lemma {:induction false} DelayFollowsRamp(n: nat, k: Params)
    requires Sane(k)
    ensures var p := AfterEmpty(Pace(k.active, k.grace), n, k);
            && p.delay == (if n <= k.grace then k.active else Ramp(k.active, k.inactive, n - k.grace))
            && p.grace == Int32(k.grace - n)
  {
    if n > 0 {
      var p := AfterEmpty(Pace(k.active, k.grace), n - 1, k);
      DelayFollowsRamp(n - 1, k);
      Int32Pred(k.grace - (n - 1));
      if n - 1 >= k.grace {
        var j := n - 1 - k.grace;
        hide Int32;
        RampReaches(k.active, k.inactive, j);
        OnRamp(p.delay, p.grace, j, k);
      }
    }
  }

  lemma Int32Pred(n: int)
    ensures Int32(Int32(n) - 1) == Int32(n - 1)
  {
  }

  /** One empty pull on the ramp. */
  lemma OnRamp(delay: int, grace: int, j: nat, k: Params)
    requires Sane(k) && delay == Ramp(k.active, k.inactive, j) && 0 <= delay <= k.inactive
    requires grace == Int32(0 - j as int)
    ensures GetInactiveDpiDelay(delay, grace, k) == Ramp(k.active, k.inactive, j + 1)
  {
    if j >= 16 {
      RampIsShort(k.active, k.inactive, j);
    } else {
      assert grace <= 0;
    }
  }

  /** The backoff: bounded, at ACTIVE during the grace period, never decreasing, at INACTIVE within
      log4(INACTIVE) + 2 further empty pulls and from then on, at a cost below 4/3 of INACTIVE. */
  lemma BackoffConverges(n: nat, k: Params)
    requires Sane(k)
    ensures var delay := AfterEmpty(Pace(k.active, k.grace), n, k).delay;
            var after := AfterEmpty(Pace(k.active, k.grace), n + 1, k).delay;
            && 0 <= delay <= after <= k.inactive
            && (n <= k.grace ==> delay == k.active)
            && (n >= k.grace ==> after == Grow(delay, k.inactive))
            && (n >= k.grace + Log4(k.inactive) + 2 ==> delay == k.inactive)
    ensures k.inactive > 0 ==> 3 * RampSum(k.active, k.inactive) < 4 * k.inactive
  {
    hide Int32, GetInactiveDpiDelay;
    DelayFollowsRamp(n, k);
    DelayFollowsRamp(n + 1, k);
    if n >= k.grace {
      RampReaches(k.active, k.inactive, n - k.grace);
      StepsBound(k.active, k.inactive);
    }
    if k.active < k.inactive {
      RampSumBound(k.active, k.inactive);
    }
  }

  /** Before the first message the registers are 0: the ramp starts at once. */
  lemma {:induction false} RampFromReset(n: nat, k: Params)
    requires Sane(k)
    ensures AfterEmpty(Pace(0, 0), n, k).delay == Ramp(0, k.inactive, n)
  {
    SameEmpty(n, k, k.(active := 0, grace := 0));
    DelayFollowsRamp(n, k.(active := 0, grace := 0));
  }

  lemma {:induction false} SameEmpty(n: nat, k: Params, j: Params)
    requires k.inactive == j.inactive
    ensures AfterEmpty(Pace(0, 0), n, k) == AfterEmpty(Pace(0, 0), n, j)
  {
    if n > 0 {
      SameEmpty(n - 1, k, j);
    }
  }

  function AfterPulls(oks: seq<bool>, k: Params): Pace
  {
    if oks == [] then Pace(0, 0) else AfterPull(AfterPulls(oks[..|oks| - 1], k), oks[|oks| - 1], k)
  }

  /** The empty pulls since the last message, or all of them if there has been none. */
  function SinceMessage(oks: seq<bool>): (n: nat)
    ensures n <= |oks|
  {
    if oks == [] || oks[|oks| - 1] then 0 else 1 + SinceMessage(oks[..|oks| - 1])
  }

  /** The delay of the ramp `n` empty pulls after a message, with the grace period, or after reset, without. */
  function DelayAfter(messages: bool, n: nat, k: Params): int
    requires Sane(k)
  {
    if !messages then Ramp(0, k.inactive, n)
    else if n <= k.grace then k.active
    else Ramp(k.active, k.inactive, n - k.grace)
  }

  /** The registers are set by the last message, whatever came before it, and follow the ramp from there. */
  lemma {:induction false} SetByLastMessage(oks: seq<bool>, k: Params)
    ensures AfterPulls(oks, k) ==
            AfterEmpty(if true in oks then Pace(k.active, k.grace) else Pace(0, 0), SinceMessage(oks), k)
    ensures true !in oks ==> SinceMessage(oks) == |oks|
  {
    if oks != [] {
      var front := oks[..|oks| - 1];
      SetByLastMessage(front, k);
      assert oks == front + [oks[|oks| - 1]];
    }
  }

  /** After any pulls: ACTIVE for GRACE empty pulls after a message, then the ramp from ACTIVE to INACTIVE; the ramp
      from 0 if there has been no message. */
  lemma DelayAfterPulls(oks: seq<bool>, k: Params)
    requires Sane(k)
    ensures AfterPulls(oks, k).delay == DelayAfter(true in oks, SinceMessage(oks), k)
    ensures true in oks ==> AfterPulls(oks, k).grace == Int32(k.grace - SinceMessage(oks))
  {
    hide Int32, AfterPull, AfterEmpty;
    SetByLastMessage(oks, k);
    if true in oks {
      DelayFollowsRamp(SinceMessage(oks), k);
    } else {
      RampFromReset(SinceMessage(oks), k);
    }
  }

  /** Whatever comes, the delay is a number of cycles between 0 and INACTIVE. */
  lemma {:induction false} DelayIsBounded(oks: seq<bool>, k: Params)
    requires Sane(k)
    ensures 0 <= AfterPulls(oks, k).delay <= k.inactive
  {
    if oks != [] {
      DelayIsBounded(oks[..|oks| - 1], k);
    }
  }

  // ---- every INACTIVE delay: does an idle server settle on it? ----

  /** A run of empty pulls from `p` gets to INACTIVE and stays there for ever. */
  ghost predicate Settles(p: Pace, k: Params) { exists from: nat :: StaysFrom(p, from, k) }

  ghost predicate StaysFrom(p: Pace, from: nat, k: Params)
  {
    forall n: nat :: n >= from ==> AfterEmpty(p, n, k).delay == k.inactive
  }

  /** Some shift of `v` by 2 bits at a time, on 32 bits, is at least `top`, and all those before it are
      positive: a check on at most `n + 1` values. */
  predicate ShiftsReach(v: int, top: int, n: nat)
    decreases n
  {
    v >= top || (v > 0 && n > 0 && ShiftsReach(Int32(4 * v), top, n - 1))
  }

  /** An empty pull without grace. */
  function Move(delay: int, k: Params): int { GetInactiveDpiDelay(delay, 0, k) }

  function Moves(delay: int, m: nat, k: Params): int { if m == 0 then delay else Move(Moves(delay, m - 1, k), k) }

  /** The pulls without grace among `n` empty ones. */
  function Graceless(grace: int, n: nat): (m: nat)
  {
    if n == 0 then 0 else Graceless(grace, n - 1) + (if Int32(grace - (n - 1)) <= 0 then 1 else 0)
  }

  predicate IsInt32(n: int) { -0x8000_0000 <= n < 0x8000_0000 }

  /** Pulls with grace, those of a wrapped count included, keep the delay; the others are moves. */
  lemma {:induction false} DelayIsMoves(p: Pace, n: nat, k: Params)
    requires p.delay <= k.inactive && IsInt32(p.grace)
    ensures AfterEmpty(p, n, k) == Pace(Moves(p.delay, Graceless(p.grace, n), k), Int32(p.grace - n))
    ensures AfterEmpty(p, n, k).delay <= k.inactive
  {
    if n > 0 {
      hide Int32, AfterPull, Move;
      DelayIsMoves(p, n - 1, k);
      Int32Pred(p.grace - (n - 1));
      OneEmptyPull(AfterEmpty(p, n - 1, k), k);
    }
  }

  lemma OneEmptyPull(p: Pace, k: Params)
    requires p.delay <= k.inactive
    ensures AfterPull(p, false, k) == Pace(if p.grace <= 0 then Move(p.delay, k) else p.delay, Int32(p.grace - 1))
    ensures AfterPull(p, false, k).delay <= k.inactive
  {
  }

  /** After any number of pulls there is one without grace. */
  lemma {:induction false} GraceRunsOut(grace: int, from: nat) returns (n: nat)
    ensures n >= from && Int32(grace - n) <= 0
  {
    var v := Int32(grace - from);
    if v <= 0 {
      n := from;
    } else {
      n := from + v;
      var q := (grace - from + 0x8000_0000) / 0x1_0000_0000;
      assert grace - from == v + 0x1_0000_0000 * q;
      Int32Of(0, q);
    }
  }

  lemma Int32Of(v: int, q: int)
    requires IsInt32(v)
    ensures Int32(v + 0x1_0000_0000 * q) == v
  {
  }

  lemma {:induction false} GracelessGrows(grace: int, n: nat, j: nat)
    ensures Graceless(grace, n + j) >= Graceless(grace, n)
  {
    if j > 0 {
      GracelessGrows(grace, n, j - 1);
    }
  }

  lemma {:induction false} ManyGraceless(grace: int, m: nat) returns (n: nat)
    ensures Graceless(grace, n) >= m
  {
    if m == 0 {
      n := 0;
    } else {
      var n' := ManyGraceless(grace, m - 1);
      n := GraceRunsOut(grace, n');
      GracelessGrows(grace, n', n - n');
      n := n + 1;
    }
  }

  lemma {:induction false} StaysMoved(delay: int, m: nat, j: nat, k: Params)
    requires Moves(delay, m, k) == k.inactive && Move(k.inactive, k) == k.inactive
    ensures Moves(delay, m + j, k) == k.inactive
  {
    hide Move;
    if j > 0 {
      StaysMoved(delay, m, j - 1, k);
    }
  }

  /** A run settles if and only if its moves get to INACTIVE and INACTIVE moves to itself. */
  lemma SettlesByMoves(p: Pace, k: Params)
    requires p.delay <= k.inactive && IsInt32(p.grace)
    ensures Settles(p, k) <==>
            Move(k.inactive, k) == k.inactive && exists m: nat :: Moves(p.delay, m, k) == k.inactive
  {
    hide Move, AfterEmpty, Int32, Graceless;
    if Settles(p, k) {
      var from: nat :| StaysFrom(p, from, k);
      var n := GraceRunsOut(p.grace, from);
      DelayIsMoves(p, n, k);
      DelayIsMoves(p, n + 1, k);
      GracelessNext(p.grace, n);
      assert AfterEmpty(p, n, k).delay == k.inactive && AfterEmpty(p, n + 1, k).delay == k.inactive;
    }
    if Move(k.inactive, k) == k.inactive && exists m: nat :: Moves(p.delay, m, k) == k.inactive {
      var m: nat :| Moves(p.delay, m, k) == k.inactive;
      var from := ManyGraceless(p.grace, m);
      forall n: nat | n >= from ensures AfterEmpty(p, n, k).delay == k.inactive {
        GracelessGrows(p.grace, from, n - from);
        DelayIsMoves(p, n, k);
        StaysMoved(p.delay, m, Graceless(p.grace, n) - m, k);
      }
      assert StaysFrom(p, from, k);
    }
  }

  lemma GracelessNext(grace: int, n: nat)
    requires Int32(grace - n) <= 0
    ensures Graceless(grace, n + 1) == Graceless(grace, n) + 1
  {
  }

  /** The values of INACTIVE that are multiplied by 4 into something not smaller, on 32 bits. */
  predicate Band(inactive: int) { 1431655766 <= inactive < 1610612736 }

  /** One empty pull at INACTIVE. */
  lemma InactiveIsFixedIff(gracePulls: int, k: Params)
    requires gracePulls <= 0 && 0 <= k.inactive < 0x8000_0000
    ensures GetInactiveDpiDelay(k.inactive, gracePulls, k) == k.inactive <==>
            k.inactive < 0x2000_0000 || Band(k.inactive)
  {
    if 0x2000_0000 <= k.inactive < 0x4000_0000 || k.inactive >= 0x6000_0000 {
      assert Int32(4 * k.inactive) < 0;
    } else if k.inactive >= 0x4000_0000 {
      assert Int32(4 * k.inactive) == 4 * k.inactive - 0x1_0000_0000;
    }
  }

  /** Below 2^29 the moves are the ramp. */
  lemma {:induction false} MovesAreRamp(delay: nat, m: nat, k: Params)
    requires delay <= k.inactive < 0x2000_0000
    ensures Moves(delay, m, k) == Ramp(delay, k.inactive, m) <= k.inactive
  {
    if m > 0 {
      MovesAreRamp(delay, m - 1, k);
    }
  }

  lemma {:induction false} MovesFirst(delay: int, m: nat, k: Params)
    ensures Moves(delay, m + 1, k) == Moves(Move(delay, k), m, k)
  {
    hide Move;
    if m > 0 {
      MovesFirst(delay, m - 1, k);
    }
  }

  lemma SmallIsReached(delay: int, k: Params)
    requires delay <= k.inactive && 0 <= k.inactive < 0x2000_0000
    ensures exists m: nat :: Moves(delay, m, k) == k.inactive
  {
    var d: nat := if delay < 0 then Move(delay, k) else delay;
    RampIsShort(d, k.inactive, 16);
    MovesAreRamp(d, 16, k);
    MovesFirst(delay, 16, k);
    assert Moves(delay, 16, k) == k.inactive || Moves(delay, 17, k) == k.inactive;
  }

  /** Moves go up by shifts, as far as those go. */
  lemma {:induction false} ShiftsAreMoves(delay: int, n: nat, k: Params)
    requires delay <= k.inactive && ShiftsReach(delay, k.inactive, n)
    ensures exists m: nat :: Moves(delay, m, k) == k.inactive
    decreases n
  {
    if delay == k.inactive {
      assert Moves(delay, 0, k) == k.inactive;
    } else {
      var m: nat;
      if Int32(4 * delay) < k.inactive {
        ShiftsAreMoves(Move(delay, k), n - 1, k);
        m :| Moves(Move(delay, k), m, k) == k.inactive;
      } else {
        m := 0;
        assert Moves(Move(delay, k), 0, k) == k.inactive;
      }
      MovesFirst(delay, m, k);
    }
  }

  lemma {:induction false} Pow4Product(a: nat, b: nat)
    ensures Pow4(a) * Pow4(b) == Pow4(a + b)
  {
    if a > 0 {
      Pow4Product(a - 1, b);
      assert Pow4(a) * Pow4(b) == 4 * (Pow4(a - 1) * Pow4(b));
    }
  }

  lemma Pow4Values()
    ensures Pow4(0) == 1 && Pow4(1) == 4 && Pow4(15) == 0x4000_0000 && Pow4(16) == 0x1_0000_0000
  {
    assert Pow4(5) == 0x400;
    assert Pow4(10) == 0x10_0000;
  }

  lemma Wraps(n: int) returns (w: int)
    ensures Int32(n) == n - 0x1_0000_0000 * w
  {
    w := (n + 0x8000_0000) / 0x1_0000_0000;
  }

  lemma Factor(p: int, q: int, r: int, w: int)
    ensures p * q - p * r * w == (q - r * w) * p
  {
  }

  lemma FourTimes(q: int, x: int)
    ensures 4 * (q * x) == 4 * x * q
  {
  }

  /** A multiple of 4 to the `j` is one of 4 to the `j + 1` after a shift. */
  lemma ShiftOfMultiple(q: int, j: nat, delay: int) returns (q': int)
    requires j <= 15 && delay == q * Pow4(j)
    ensures Int32(4 * delay) == q' * Pow4(j + 1)
  {
    Pow4Product(j + 1, 15 - j);
    Pow4Values();
    var w := Wraps(4 * delay);
    var p, r := Pow4(j + 1), Pow4(15 - j);
    q' := q - r * w;
    Pow4Next(j);
    hide Int32, Pow4;
    FourTimes(q, Pow4(j));
    Factor(p, q, r, w);
  }

  lemma Pow4Next(j: nat)
    ensures Pow4(j + 1) == 4 * Pow4(j)
  {
  }

  /** A delay that has been shifted `j` times is 0 after 16 shifts, and the moves then start again from 1,
      whose shifts stay below the band. */
  lemma {:induction false} NeverReached(delay: int, q: int, j: nat, m: nat, k: Params)
    requires Band(k.inactive) && IsInt32(delay) && delay < k.inactive && j <= 16 && delay == q * Pow4(j)
    requires j <= 15 ==> !ShiftsReach(delay, k.inactive, 15 - j)
    ensures Moves(delay, m, k) != k.inactive
    decreases m
  {
    hide Pow4, ShiftsReach, Int32;
    if m > 0 {
      MovesFirst(delay, m - 1, k);
      Pow4Values();
      if delay <= 0 {
        PowersStayBelow(0, 15, k.inactive);
        NeverReached(1, 1, 0, m - 1, k);
      } else if j == 16 {
        assert false;
      } else {
        var q' := ShiftOfMultiple(q, j, delay);
        ShiftStaysBelow(delay, j, q', k.inactive);
        NeverReached(Int32(4 * delay), q', j + 1, m - 1, k);
      }
    }
  }

  lemma ShiftStaysBelow(delay: int, j: nat, q: int, top: int)
    requires Band(top) && delay > 0 && j <= 15 && !ShiftsReach(delay, top, 15 - j)
    requires Int32(4 * delay) == q * Pow4(j + 1)
    ensures Int32(4 * delay) < top && (j < 15 ==> !ShiftsReach(Int32(4 * delay), top, 15 - (j + 1)))
  {
    Pow4Values();
  }

  lemma {:induction false} PowersStayBelow(i: nat, n: nat, top: int)
    requires Band(top) && i <= 16
    ensures !ShiftsReach(if i == 16 then 0 else Pow4(i), top, n)
    decreases n
  {
    if i < 16 {
      Pow4Product(i, 15 - i);
      Pow4Values();
      assert Pow4(i) <= Pow4(i) * Pow4(15 - i);
      if n > 0 {
        PowersStayBelow(i + 1, n - 1, top);
        assert Int32(4 * Pow4(i)) == if i == 15 then 0 else Pow4(i + 1);
      }
    }
  }

  /** From any registers, an idle server settles on INACTIVE if and only if that is below 2^29, or it is in the
      band and the shifts of the delay after one empty pull, 16 values, get to it. */
  lemma SettlesIff(p: Pace, k: Params)
    requires 0 <= k.inactive < 0x8000_0000 && IsInt32(p.grace) && IsInt32(p.delay)
    ensures Settles(p, k) <==>
            k.inactive < 0x2000_0000
            || (Band(k.inactive) && ShiftsReach(AfterPull(p, false, k).delay, k.inactive, 15))
  {
    hide Int32;
    var q := AfterPull(p, false, k);
    SettlesLater(p, k);
    SettlesByMoves(q, k);
    InactiveIsFixedIff(0, k);
    if k.inactive < 0x2000_0000 {
      SmallIsReached(q.delay, k);
    } else if Band(k.inactive) {
      if ShiftsReach(q.delay, k.inactive, 15) {
        ShiftsAreMoves(q.delay, 15, k);
      } else {
        assert q.delay < k.inactive;
        forall m: nat ensures Moves(q.delay, m, k) != k.inactive {
          NeverReached(q.delay, q.delay, 0, m, k);
        }
      }
    }
  }

  lemma {:induction false} EmptyFirst(p: Pace, n: nat, k: Params)
    ensures AfterEmpty(p, n + 1, k) == AfterEmpty(AfterPull(p, false, k), n, k)
  {
    hide AfterPull;
    if n > 0 {
      EmptyFirst(p, n - 1, k);
    }
  }

  lemma SettlesLater(p: Pace, k: Params)
    ensures Settles(p, k) <==> Settles(AfterPull(p, false, k), k)
  {
    hide AfterPull, AfterEmpty;
    var q := AfterPull(p, false, k);
    if Settles(p, k) {
      var from: nat :| StaysFrom(p, from, k);
      forall n: nat | n >= from ensures AfterEmpty(q, n, k).delay == k.inactive {
        EmptyFirst(p, n, k);
        assert AfterEmpty(p, n + 1, k).delay == k.inactive;
      }
      assert StaysFrom(q, from, k);
    }
    if Settles(q, k) {
      var from: nat :| StaysFrom(q, from, k);
      forall n: nat | n >= from + 1 ensures AfterEmpty(p, n, k).delay == k.inactive {
        EmptyFirst(p, n - 1, k);
      }
      assert StaysFrom(p, from + 1, k);
    }
  }

  /** An idle server that has had no message yet settles if and only if INACTIVE is below 2^29. */
  lemma SettlesFromResetIff(k: Params)
    requires 0 <= k.inactive < 0x8000_0000
    ensures Settles(Pace(0, 0), k) <==> k.inactive < 0x2000_0000
  {
    hide Settles, Int32, ShiftsReach;
    SettlesIff(Pace(0, 0), k);
    if Band(k.inactive) {
      PowersStayBelow(0, 15, k.inactive);
      assert Pow4(0) == 1 == AfterPull(Pace(0, 0), false, k).delay;
    }
  }

  /** After a message, with INACTIVE in the band and ACTIVE at 1, the delay goes round for ever. */
  lemma InBandButNeverSettles()
    ensures Band(1500000000) && !Settles(Pace(1, 0), Params(1500000000, 1, 0))
    ensures Settles(Pace(375000000, 0), Params(1500000000, 375000000, 0))
  {
    hide Settles;
    var k, j := Params(1500000000, 1, 0), Params(1500000000, 375000000, 0);
    SettlesIff(Pace(1, 0), k);
    assert AfterPull(Pace(1, 0), false, k).delay == 4 == Pow4(1);
    PowersStayBelow(1, 15, k.inactive);
    SettlesIff(Pace(375000000, 0), j);
    assert AfterPull(Pace(375000000, 0), false, j).delay == j.inactive;
  }

  /** Just above 2^29 the delay at INACTIVE is followed by a negative one. */
  lemma DelayGoesNegative()
    ensures AfterPull(Pace(0x2000_0001, 0), false, Params(0x2000_0001, 0, 0)).delay < 0
  {
  }
}
