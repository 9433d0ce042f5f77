/** What the controllers have in common: the clock and the calendar, and the record of the CAN
    commands and of how the requests came out. */
module CtrlLog {

  // ---- Clock and calendar ----

  const CLOCK_MODULUS: nat := 0x1_0000_0000_0000_0000

  /** Unsigned 64-bit difference of two clock readings. */
  function Elapsed(now: nat, since: nat): (d: nat)
    ensures since <= now < CLOCK_MODULUS ==> d == now - since
  {
    (now - since) % CLOCK_MODULUS
  }

  /** What an event reads of the clock: nothing, or first `t0` and then `t1`. */
  datatype Reading = NoReading | Reading(t0: nat, t1: nat)

  /** From one reading event to the next the clock advances, and it does not go back within one. */
  ghost predicate Advancing<E(!new)>(es: seq<E>, clock: E -> Reading, now: nat)
    decreases |es|
  {
    es == [] ||
    match clock(es[0])
    case NoReading => Advancing(es[1..], clock, now)
    case Reading(t0, t1) => now < t0 <= t1 < CLOCK_MODULUS && Advancing(es[1..], clock, t1)
  }

  /** The events that read the clock. */
  function Calls<E>(es: seq<E>, clock: E -> Reading): nat {
    if es == [] then 0 else (if clock(es[0]).Reading? then 1 else 0) + Calls(es[1..], clock)
  }

  /** The clock after an event. */
  function After<E>(e: E, clock: E -> Reading, now: nat): nat {
    if clock(e).Reading? then clock(e).t1 else now
  }

  function AfterAll<E>(es: seq<E>, clock: E -> Reading, now: nat): nat {
    if es == [] then now else AfterAll(es[1..], clock, After(es[0], clock, now))
  }

  lemma {:induction false} AdvancingAfter<E(!new)>(es: seq<E>, fs: seq<E>, clock: E -> Reading, now: nat)
    requires Advancing(es + fs, clock, now)
    ensures Advancing(fs, clock, AfterAll(es, clock, now))
    decreases |es|
  {
    if es == [] {
      assert es + fs == fs;
    } else {
      assert (es + fs)[0] == es[0] && (es + fs)[1..] == es[1..] + fs;
      AdvancingAfter(es[1..], fs, clock, After(es[0], clock, now));
    }
  }

  /** The weekday masks of a booking: Sunday is bit 0, Monday bit 6 down to Saturday bit 1. */
  function WeekdayMask(week: nat): bv8 {
    match week
    case 0 => 0x01
    case 1 => 0x40
    case 2 => 0x20
    case 3 => 0x10
    case 4 => 0x08
    case 5 => 0x04
    case 6 => 0x02
    case _ => 0
  }

  predicate Repeating(period: bv8) {
    period & 0x80 != 0
  }

  predicate OnDay(period: bv8, week: nat) {
    WeekdayMask(week) & period != 0
  }

  function PowerOfTwo(n: nat): nat {
    if n == 0 then 1 else 2 * PowerOfTwo(n - 1)
  }

  /** Sunday is the lowest bit and the other days count down from bit 6; the highest bit makes a booking
      repeat. */
  lemma MaskOfDay(week: nat, period: bv8)
    ensures week < 7 ==> WeekdayMask(week) as nat == PowerOfTwo((7 - week) % 7)
    ensures Repeating(period) <==> period as nat >= 128
    ensures week < 7 ==> (OnDay(period, week) <==> (period >> ((7 - week) % 7)) & 1 == 1)
  {
    if week < 7 {
      assert PowerOfTwo(0) == 1 && PowerOfTwo(1) == 2 && PowerOfTwo(2) == 4 && PowerOfTwo(3) == 8;
      assert PowerOfTwo(4) == 16 && PowerOfTwo(5) == 32 && PowerOfTwo(6) == 64;
    }
  }

  /** Counting on from the earlier reading by the difference gives the later one, also when the clock has
      wrapped around in between. */
  lemma ElapsedCountsOn(now: nat, since: nat)
    requires now < CLOCK_MODULUS && since < CLOCK_MODULUS
    ensures Elapsed(now, since) < CLOCK_MODULUS
    ensures (since + Elapsed(now, since)) % CLOCK_MODULUS == now
  {
    if now < since {
      assert (now - since) % CLOCK_MODULUS == now - since + CLOCK_MODULUS;
    }
  }

  // ---- CAN commands and outcomes ----

  /** Every controller withdraws its command by sending code 0. */
  const CAN_CLEAN: nat := 0

  /** Commands and cleans strictly alternate, beginning with a command. */
  ghost predicate Alternates(can: seq<nat>) {
    forall i :: 0 <= i < |can| ==> (can[i] == CAN_CLEAN <==> i % 2 == 1)
  }

  lemma AlternatesMore(can: seq<nat>, code: nat)
    requires Alternates(can) && (code == CAN_CLEAN <==> |can| % 2 == 1)
    ensures Alternates(can + [code])
  {
  }

  /** How a request that was taken up came out. */
  datatype Outcome = Refused | Confirmed | TimedOut

  /** The requests that were not refused, each of which sends one command. */
  function Commanded(os: seq<Outcome>): nat {
    if os == [] then 0 else Commanded(os[..|os| - 1]) + if os[|os| - 1] == Refused then 0 else 1
  }

  lemma CommandedMore(os: seq<Outcome>, o: Outcome)
    ensures Commanded(os + [o]) == Commanded(os) + if o == Refused then 0 else 1
  {
    assert (os + [o])[..|os|] == os;
  }
}
