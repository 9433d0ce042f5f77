/** The lock of PrvtProt_lock.c that keeps diagnosis, upgrade and vehicle control apart. */
module OdcLock {
  import ChargeCtrl
  import CtrlLog

  // The lock objects, in table order.
  const DIAG_TSPDIAG: nat := 0
  const DIAG_ACTIVE: nat := 1
  const DIAG_CLEAN: nat := 2
  const OTA_READECUVER: nat := 3
  const OTA_FOTAUPDATE: nat := 4
  const VEHICTRL_CHRG: nat := 9
  const VEHICTRL_RMTSTART: nat := 15
  const VEHICTRL_SEAT: nat := 16
  const OBJ_MAX: nat := 17

  // The lock flag and the masks, each as the set of its bits that are 1.
  type Bits = set<nat>

  const MASK_TSPDIAG: Bits := {0}
  const MASK_ACTIVE: Bits := {1}
  const MASK_CLEAN: Bits := {2}
  const MASK_READECUVER: Bits := {3}
  const MASK_FOTAUPDATE: Bits := {4}
  const MASK_RMTSTART: Bits := {15}
  const MASK_DIAG_ALL: Bits := {0, 1, 2}
  const MASK_OTA_ALL: Bits := {3, 4}
  const MASK_CTRL_ALL: Bits := {5, 6, 7, 8, 9, 10, 11, 12, 13, 14, 15, 16}

  const OK: int := 0
  const ERR_FOTAREADVER: int := -1
  const ERR_FOTAUPDATE: int := -2
  const ERR_VEHICTRLING: int := -3
  const ERR_DIAGING: int := -4

  /** The mask table: one bit each, but it has no entry for the seat, so C gives it the mask 0. */
  function Mask(obj: nat): Bits {
    if obj < VEHICTRL_SEAT then {obj} else {}
  }

  /** The objects of vehicle control that ask whether an upgrade runs. */
  predicate IsCtrl(obj: nat) {
    5 <= obj < OBJ_MAX && obj != VEHICTRL_RMTSTART
  }

  /** The result is kept in an unsigned char before it is returned as an int. */
  function AsUnsignedChar(code: int): int {
    code % 256
  }

  predicate Has(flag: Bits, mask: Bits) {
    exists bit :: bit in mask && bit in flag
  }

  /** Whether the lock is given, some other lock being held. */
  predicate Grants(flag: Bits, obj: nat) {
    if obj == DIAG_TSPDIAG then !Has(flag, MASK_OTA_ALL) && !Has(flag, MASK_ACTIVE) && !Has(flag, MASK_CLEAN)
    else if obj == DIAG_ACTIVE then !Has(flag, MASK_OTA_ALL) && !Has(flag, MASK_TSPDIAG) && !Has(flag, MASK_CLEAN)
    else if obj == DIAG_CLEAN then !Has(flag, MASK_OTA_ALL) && !Has(flag, MASK_TSPDIAG) && !Has(flag, MASK_ACTIVE)
    else if obj == OTA_READECUVER then !Has(flag, MASK_DIAG_ALL)
    else if obj == OTA_FOTAUPDATE then !Has(flag, MASK_DIAG_ALL) && !Has(flag, MASK_CTRL_ALL)
    else if IsCtrl(obj) then !Has(flag, MASK_FOTAUPDATE)
    else true
  }

  /** The code of a refusal; for the third kind of diagnosis the code tests the object number 3
      (bits 0 and 1) where it means the mask of reading versions. */
  function Refusal(flag: Bits, obj: nat): int {
    if obj <= DIAG_CLEAN then
      if Has(flag, if obj == DIAG_CLEAN then {0, 1} else MASK_READECUVER) then ERR_FOTAREADVER
      else if Has(flag, MASK_FOTAUPDATE) then ERR_FOTAUPDATE
      else ERR_DIAGING
    else if obj == OTA_READECUVER then ERR_DIAGING
    else if obj == OTA_FOTAUPDATE then if Has(flag, MASK_DIAG_ALL) then ERR_DIAGING else ERR_VEHICTRLING
    else ERR_FOTAUPDATE
  }

  predicate Given(flag: Bits, obj: nat) {
    flag == {} || Grants(flag, obj)
  }

  /** The flag after asking; objects outside the table change nothing unless the flag is 0, when C
      would read beyond the table, so callers stay inside it. */
  function FlagAfter(flag: Bits, obj: nat): Bits {
    if Given(flag, obj) && obj < OBJ_MAX then flag + Mask(obj) else flag
  }

  function Answer(flag: Bits, obj: nat): int {
    if Given(flag, obj) then OK else AsUnsignedChar(Refusal(flag, obj))
  }

  // ---- Who keeps whom out ----

  /** The objects whose bits keep `obj` out: the other two kinds of diagnosis and both uses of the upgrade
      keep a diagnosis out, any diagnosis the reading of versions, any diagnosis and any control the upgrade,
      and the upgrade a control, but nothing the remote start. */
  function KeptOutBy(obj: nat): Bits {
    match obj
    case 0 => {1, 2, 3, 4}
    case 1 => {0, 2, 3, 4}
    case 2 => {0, 1, 3, 4}
    case 3 => {0, 1, 2}
    case 4 => {0, 1, 2, 5, 6, 7, 8, 9, 10, 11, 12, 13, 14, 15, 16}
    case 15 => {}
    case _ => if obj < 17 then {4} else {}
  }

  /** The lock is given exactly when none of these holds it, and the answer is then 0. */
  lemma GivenIff(flag: Bits, obj: nat)
    ensures Given(flag, obj) <==> flag * KeptOutBy(obj) == {}
    ensures Given(flag, obj) <==> Answer(flag, obj) == 0
    ensures obj < OBJ_MAX ==>
      FlagAfter(flag, obj) == if flag * KeptOutBy(obj) == {} && obj != VEHICTRL_SEAT then flag + {obj} else flag
  {
    if flag * KeptOutBy(obj) == {} {
      forall b | b in KeptOutBy(obj)
        ensures b !in flag
      {
        assert b in flag ==> b in flag * KeptOutBy(obj);
      }
    } else {
      var b :| b in flag * KeptOutBy(obj);
      assert b in flag && b in KeptOutBy(obj);
    }
  }

  /** What an answer names as the holder: 255 the reading of versions, 254 the upgrade, 253 a control, 252 a
      diagnosis. */
  function Named(answer: int): Bits {
    match answer
    case 255 => {3}
    case 254 => {4}
    case 253 => {5, 6, 7, 8, 9, 10, 11, 12, 13, 14, 15, 16}
    case 252 => {0, 1, 2}
    case _ => {}
  }

  /** The answer names a holder that keeps the object out. */
  predicate Truthful(flag: Bits, obj: nat) {
    flag * Named(Answer(flag, obj)) * KeptOutBy(obj) != {}
  }

  /** A refusal names a holder that is there and in the way, but for the third kind of diagnosis, which does
      exactly when an upgrade runs and neither of the other kinds.  When there are several, a diagnosis is
      named before a control, and the reading of versions before the upgrade. */
  lemma RefusalIsTruthfulIff(flag: Bits, obj: nat)
    requires flag * KeptOutBy(obj) != {}
    ensures Truthful(flag, obj) <==>
      obj != DIAG_CLEAN || (4 in flag && !(0 in flag || 1 in flag)) || (3 in flag && (0 in flag || 1 in flag))
    ensures obj == OTA_FOTAUPDATE ==> (Answer(flag, obj) == 252 <==> flag * {0, 1, 2} != {})
    ensures obj == DIAG_TSPDIAG || obj == DIAG_ACTIVE ==> (Answer(flag, obj) == 255 <==> 3 in flag)
    ensures obj == DIAG_TSPDIAG || obj == DIAG_ACTIVE ==> (Answer(flag, obj) == 252 <==> 3 !in flag && 4 !in flag)
  {
    GivenIff(flag, obj);
    var b :| b in flag * KeptOutBy(obj);
    assert b in flag;
    TruthOf(flag, obj);
  }

  lemma TruthOf(flag: Bits, obj: nat)
    ensures forall b :: b in flag * Named(Answer(flag, obj)) * KeptOutBy(obj) <==>
      b in flag && b in Named(Answer(flag, obj)) && b in KeptOutBy(obj)
    ensures forall b :: b in flag * {0, 1, 2} <==> b in flag && (b == 0 || b == 1 || b == 2)
  {
  }

  // ---- Exclusion ----

  /** Of the bits: at most one kind of diagnosis, no diagnosis beside an upgrade or its version
      reading, and no control but remote start beside an upgrade.  The seat has no bit. */
  predicate Exclusive(flag: Bits) {
    && (!Has(flag, MASK_DIAG_ALL) || !Has(flag, MASK_OTA_ALL))
    && (!Has(flag, MASK_FOTAUPDATE) || !Has(flag, MASK_CTRL_ALL - MASK_RMTSTART))
    && (!Has(flag, MASK_TSPDIAG) || !Has(flag, MASK_ACTIVE))
    && (!Has(flag, MASK_TSPDIAG) || !Has(flag, MASK_CLEAN))
    && (!Has(flag, MASK_ACTIVE) || !Has(flag, MASK_CLEAN))
  }

  datatype Event = Acquire(obj: nat) | Release(obj: nat)

  function Step(flag: Bits, e: Event): Bits {
    match e
    case Acquire(obj) => FlagAfter(flag, obj)
    case Release(obj) => flag - Mask(obj)
  }

  function Run(flag: Bits, es: seq<Event>): Bits
    decreases |es|
  {
    if es == [] then flag else Run(Step(flag, es[0]), es[1..])
  }

  lemma ReleaseKeepsExclusive(flag: Bits, mask: Bits)
    requires Exclusive(flag)
    ensures Exclusive(flag - mask)
  {
  }

  lemma AcquireKeepsExclusive(flag: Bits, obj: nat)
    requires Exclusive(flag)
    ensures Exclusive(FlagAfter(flag, obj))
  {
  }

  lemma StepKeepsExclusive(flag: Bits, e: Event)
    requires Exclusive(flag)
    ensures Exclusive(Step(flag, e))
  {
    match e
    case Acquire(obj) => AcquireKeepsExclusive(flag, obj);
    case Release(obj) => ReleaseKeepsExclusive(flag, Mask(obj));
  }

  lemma {:induction false} RunKeepsExclusive(flag: Bits, es: seq<Event>)
    requires Exclusive(flag)
    ensures Exclusive(Run(flag, es))
    decreases |es|
  {
    if es != [] {
      StepKeepsExclusive(flag, es[0]);
      RunKeepsExclusive(Step(flag, es[0]), es[1..]);
    }
  }

  // ---- Who holds the lock ----

  /** The flag and, ghostly, who was given the lock and has not released it. */
  datatype Locks = Locks(flag: Bits, held: multiset<nat>)

  const Free: Locks := Locks({}, multiset{})

  function LocksAfter(l: Locks, e: Event): Locks {
    match e
    case Acquire(obj) =>
      Locks(Step(l.flag, e), if Given(l.flag, obj) && obj < OBJ_MAX then l.held + multiset{obj} else l.held)
    case Release(obj) => Locks(Step(l.flag, e), l.held - multiset{obj})
  }

  function LocksRun(l: Locks, es: seq<Event>): Locks
    decreases |es|
  {
    if es == [] then l else LocksRun(LocksAfter(l, es[0]), es[1..])
  }

  /** The bits tell who holds the lock, the seat apart. */
  ghost predicate Consistent(l: Locks) {
    && (forall bit :: bit in l.flag ==> bit < VEHICTRL_SEAT)
    && (forall obj: nat :: obj < VEHICTRL_SEAT ==> (obj in l.flag <==> obj in l.held))
    && (forall obj :: obj in l.held ==> obj < OBJ_MAX)
  }

  /** A release finds no second holder of its object: the bit does not count how often it was set. */
  predicate Tidy(l: Locks, e: Event) {
    e.Release? ==> e.obj >= VEHICTRL_SEAT || l.held[e.obj] <= 1
  }

  /** The bits go on telling who holds the lock exactly when a release leaves no second holder. */
  lemma StepConsistentIff(l: Locks, e: Event)
    requires Consistent(l)
    ensures Consistent(LocksAfter(l, e)) <==> Tidy(l, e)
  {
    var l' := LocksAfter(l, e);
    if !Tidy(l, e) {
      assert e.obj in l'.held && e.obj !in l'.flag;
    }
  }

  ghost predicate AllTidy(l: Locks, es: seq<Event>)
    decreases |es|
  {
    es == [] || (Tidy(l, es[0]) && AllTidy(LocksAfter(l, es[0]), es[1..]))
  }

  /** What the lock is there to keep apart. */
  predicate Conflict(a: nat, b: nat) {
    || (a < b <= DIAG_CLEAN)
    || (a <= DIAG_CLEAN && (b == OTA_READECUVER || b == OTA_FOTAUPDATE))
    || (a == OTA_FOTAUPDATE && IsCtrl(b))
  }

  lemma HoldersAreApart(l: Locks, a: nat, b: nat)
    requires Consistent(l) && Exclusive(l.flag) && a in l.held && b in l.held && Conflict(a, b)
    ensures a == OTA_FOTAUPDATE && b == VEHICTRL_SEAT
  {
    assert a in l.flag && (a in MASK_DIAG_ALL || a in MASK_FOTAUPDATE);
    assert b < VEHICTRL_SEAT ==> b in l.flag;
    assert b < VEHICTRL_SEAT ==> b in MASK_DIAG_ALL || b in MASK_OTA_ALL || b in MASK_CTRL_ALL - MASK_RMTSTART;
  }

  lemma {:induction false} RunStaysConsistent(l: Locks, es: seq<Event>)
    requires Consistent(l) && Exclusive(l.flag) && AllTidy(l, es)
    ensures Consistent(LocksRun(l, es)) && Exclusive(LocksRun(l, es).flag)
    decreases |es|
  {
    if es != [] {
      StepConsistentIff(l, es[0]);
      StepKeepsExclusive(l.flag, es[0]);
      RunStaysConsistent(LocksAfter(l, es[0]), es[1..]);
    }
  }

  /** In every run in which no release leaves a second holder of its object, two conflicting objects
      are held at once only when they are the upgrade and the seat. */
  lemma HoldersApart(es: seq<Event>, a: nat, b: nat)
    requires AllTidy(Free, es) && a in LocksRun(Free, es).held && b in LocksRun(Free, es).held && Conflict(a, b)
    ensures a == OTA_FOTAUPDATE && b == VEHICTRL_SEAT
  {
    RunStaysConsistent(Free, es);
    HoldersAreApart(LocksRun(Free, es), a, b);
  }

  lemma LocksRunTwo(l: Locks, a: Event, b: Event)
    ensures LocksRun(l, [a, b]) == LocksAfter(LocksAfter(l, a), b)
  {
    assert [a, b][1..] == [b] && [b][1..] == [];
    assert LocksRun(l, [a, b]) == LocksRun(LocksAfter(l, a), [b]);
  }

  /** The upgrade and the seat can be: the seat sets no bit. */
  lemma SeatBesideUpgrade()
    ensures AllTidy(Free, [Acquire(VEHICTRL_SEAT), Acquire(OTA_FOTAUPDATE)])
    ensures LocksRun(Free, [Acquire(VEHICTRL_SEAT), Acquire(OTA_FOTAUPDATE)]).held
            == multiset{VEHICTRL_SEAT, OTA_FOTAUPDATE}
  {
    LocksRunTwo(Free, Acquire(VEHICTRL_SEAT), Acquire(OTA_FOTAUPDATE));
    assert LocksAfter(Free, Acquire(VEHICTRL_SEAT)) == Locks({}, multiset{VEHICTRL_SEAT});
  }

  /** And so can the upgrade and any control object after an untidy release: asked for twice, as
      when a second command arrives while the first runs, the lock is gone when the first ends. */
  lemma SecondHolderBesideUpgrade(obj: nat)
    requires IsCtrl(obj) && obj < VEHICTRL_SEAT
    ensures LocksRun(LocksRun(Free, [Acquire(obj), Acquire(obj)]), [Release(obj), Acquire(OTA_FOTAUPDATE)]).held
            == multiset{obj, OTA_FOTAUPDATE}
  {
    LocksRunTwo(Free, Acquire(obj), Acquire(obj));
    assert LocksAfter(Free, Acquire(obj)) == Locks({obj}, multiset{obj});
    AskedAgain(obj);
    var two := Locks({obj}, multiset{obj, obj});
    LocksRunTwo(two, Release(obj), Acquire(OTA_FOTAUPDATE));
    assert LocksAfter(two, Release(obj)) == Locks({}, multiset{obj});
  }

  /** An object is given the lock again while it holds it. */
  lemma AskedAgain(obj: nat)
    requires IsCtrl(obj) && obj < VEHICTRL_SEAT
    ensures LocksAfter(Locks({obj}, multiset{obj}), Acquire(obj)) == Locks({obj}, multiset{obj, obj})
  {
    assert obj !in MASK_FOTAUPDATE;
  }

  /** Once a control object was given the lock, an upgrade can start exactly when the object is
      the seat, whose mask is missing from the table, and the upgrade could start before. */
  lemma KeepsUpgradeOutIff(flag: Bits, obj: nat)
    requires IsCtrl(obj) && Given(flag, obj)
    ensures Given(FlagAfter(flag, obj), OTA_FOTAUPDATE) <==> obj == VEHICTRL_SEAT && Given(flag, OTA_FOTAUPDATE)
  {
    if obj != VEHICTRL_SEAT {
      assert obj in MASK_CTRL_ALL && obj in FlagAfter(flag, obj);
    }
  }

  /** And the upgrade stays out over every run that does not release the object. */
  lemma {:induction false} HeldKeepsUpgradeOut(flag: Bits, obj: nat, es: seq<Event>)
    requires IsCtrl(obj) && obj in flag && obj < VEHICTRL_SEAT
    requires Release(obj) !in es
    ensures obj in Run(flag, es) && !Given(Run(flag, es), OTA_FOTAUPDATE)
    decreases |es|
  {
    assert obj in MASK_CTRL_ALL;
    if es != [] {
      HeldKeepsUpgradeOut(Step(flag, es[0]), obj, es[1..]);
    }
  }

  /** The callers compare the answer with the negative codes, but it never is negative: a refusal
      for an upgrade comes back as 254. */
  lemma AnswerIsNeverNegative(flag: Bits, obj: nat)
    ensures Answer(flag, obj) >= 0
    ensures Answer(flag, obj) == 254 <==> !Given(flag, obj) && Refusal(flag, obj) == ERR_FOTAUPDATE
  {
  }

  /** So a charge booking that an upgrade turns away is neither reported to the TSP nor noted as a
      failure the hold loop would retry. */
  lemma RefusedBookingIsNotNoted(s: ChargeCtrl.State, e: ChargeCtrl.Env, flag: Bits)
    requires e.lock == Answer(flag, VEHICTRL_CHRG) && Has(flag, MASK_FOTAUPDATE)
    ensures ChargeCtrl.Trigger(s, e) == ChargeCtrl.Arm(s, e)
  {
  }

  /** What the lock answers to a booking while an upgrade holds it. */
  function WhileUpgrading(): int {
    Answer(Run({}, [Acquire(OTA_FOTAUPDATE)]), VEHICTRL_CHRG)
  }

  /** The booking comes due while an upgrade holds the lock, and ten seconds later, in the next minute,
      the upgrade is over and nothing stands in the way. */
  function TurnedAway(book: ChargeCtrl.Book, now: nat, stamp: nat): seq<ChargeCtrl.Event> {
    [ChargeCtrl.Main(DueWhileUpgrading(book, now, stamp)), ChargeCtrl.Main(NextMinute(book, now + 10_000, stamp + 10))]
  }

  function DueWhileUpgrading(book: ChargeCtrl.Book, now: nat, stamp: nat): ChargeCtrl.Env {
    ChargeCtrl.DueCall(book, now, stamp, 0, WhileUpgrading()).(upgrade := true)
  }

  function NextMinute(book: ChargeCtrl.Book, now: nat, stamp: nat): ChargeCtrl.Env {
    ChargeCtrl.LaterCall(book, now, stamp).(hour := book.hour, min := (book.min + 1) % 60)
  }

  /** A run from initialisation: the booking was not reported, is not retried and is not taken up,
      though its window is open. */
  lemma RefusedIsNotRetried(start: nat, stamp: nat, book: ChargeCtrl.Book)
    requires start + 30_000_000 < CtrlLog.CLOCK_MODULUS && book.valid && book.period == 0xff
    ensures var s := ChargeCtrl.Run(ChargeCtrl.Init(start, book), TurnedAway(book, start + 1, stamp));
      && s.log.notes == [] && s.log.marks == [ChargeCtrl.Triggered(stamp)] && s.log.consumed == 0
      && s.window == ChargeCtrl.Window(true, stamp, start + 1)
  {
    UpgradeHeld();
    var due, later := DueWhileUpgrading(book, start + 1, stamp), NextMinute(book, start + 10_001, stamp + 10);
    ChargeCtrl.RunOfTwo(ChargeCtrl.Init(start, book), ChargeCtrl.Main(due), ChargeCtrl.Main(later));
    ChargeCtrl.TurnedAway(ChargeCtrl.Init(start, book), due);
    ChargeCtrl.NothingToRetry(ChargeCtrl.MainStep(ChargeCtrl.Init(start, book), due), later);
    assert [] + [ChargeCtrl.Triggered(stamp)] == [ChargeCtrl.Triggered(stamp)];
  }

  /** Another: the day before, the booking found the ready light on, and that failure is still on
      record; so this time it is retried and taken up. */
  lemma RefusedIsRetried(start: nat, stamp: nat, book: ChargeCtrl.Book)
    requires start + 90_000_000 < CtrlLog.CLOCK_MODULUS && book.valid && book.period == 0xff
    ensures var es := ChargeCtrl.FailureOnRecord(book, start, stamp)
                      + TurnedAway(book, start + 86_400_001, stamp + 86_400);
      var s := ChargeCtrl.Run(ChargeCtrl.Init(start, book), es);
      ChargeCtrl.RetriedAndTaken(s, 2)
  {
    ChargeCtrl.FailureStays(start, stamp, book);
    RetriedAfter(ChargeCtrl.Init(start, book), ChargeCtrl.FailureOnRecord(book, start, stamp),
                 start + 86_400_001, stamp + 86_400);
  }

  lemma RetriedAfter(s0: ChargeCtrl.State, es: seq<ChargeCtrl.Event>, now: nat, stamp: nat)
    requires now + 10_000 < CtrlLog.CLOCK_MODULUS
    requires var s := ChargeCtrl.Run(s0, es);
      && s.stage == ChargeCtrl.Idle && !s.req && ChargeCtrl.Fires(s)
      && ChargeCtrl.FailedForConditions(s.failtype) && s.book.valid && s.book.period == 0xff
    ensures var s := ChargeCtrl.Run(s0, es);
      var t := ChargeCtrl.Run(s0, es + TurnedAway(s.book, now, stamp));
      ChargeCtrl.RetriedAndTaken(t, s.log.consumed + 1)
  {
    var s := ChargeCtrl.Run(s0, es);
    ChargeCtrl.RunAppend(s0, es, TurnedAway(s.book, now, stamp));
    RetriedNow(s, now, stamp);
  }

  lemma RetriedNow(s: ChargeCtrl.State, now: nat, stamp: nat)
    requires s.stage == ChargeCtrl.Idle && !s.req && ChargeCtrl.Fires(s) && now + 10_000 < CtrlLog.CLOCK_MODULUS
    requires ChargeCtrl.FailedForConditions(s.failtype) && s.book.valid && s.book.period == 0xff
    ensures var t := ChargeCtrl.Run(s, TurnedAway(s.book, now, stamp));
      ChargeCtrl.RetriedAndTaken(t, s.log.consumed + 1)
  {
    UpgradeHeld();
    var due, later := DueWhileUpgrading(s.book, now, stamp), NextMinute(s.book, now + 10_000, stamp + 10);
    ChargeCtrl.TurnedAwayIsTaken(s, due, later);
    ChargeCtrl.TwoCalls(s, due, later, TurnedAway(s.book, now, stamp), s.log.consumed + 1);
  }

  lemma UpgradeHeld()
    ensures WhileUpgrading() == 254
  {
    assert [Acquire(OTA_FOTAUPDATE)][1..] == [];
    assert Run({}, [Acquire(OTA_FOTAUPDATE)]) == {OTA_FOTAUPDATE};
    assert OTA_FOTAUPDATE in MASK_FOTAUPDATE;
  }

  /** What the other two kinds of diagnosis answer when refused. */
  function IntendedRefusal(flag: Bits): int {
    if Has(flag, MASK_READECUVER) then ERR_FOTAREADVER
    else if Has(flag, MASK_FOTAUPDATE) then ERR_FOTAUPDATE
    else ERR_DIAGING
  }

  /** Because of the mixed-up mask, the third kind of diagnosis gives the intended reason exactly
      when an upgrade runs and no versions are read. */
  lemma CleanRefusalRightIff(flag: Bits)
    requires Exclusive(flag) && flag != {} && !Grants(flag, DIAG_CLEAN)
    ensures Refusal(flag, DIAG_CLEAN) == IntendedRefusal(flag) <==>
      Has(flag, MASK_FOTAUPDATE) && !Has(flag, MASK_READECUVER)
  {
  }

  /** A run: the versions are being read, and the third kind of diagnosis is told that a diagnosis
      runs. */
  lemma CleanIsMisled()
    ensures var flag := Run({}, [Acquire(OTA_READECUVER)]);
      && Answer(flag, DIAG_CLEAN) == AsUnsignedChar(ERR_DIAGING)
      && IntendedRefusal(flag) == ERR_FOTAREADVER
  {
    assert [Acquire(OTA_READECUVER)][1..] == [];
    assert Run({}, [Acquire(OTA_READECUVER)]) == {OTA_READECUVER};
    assert OTA_READECUVER in MASK_READECUVER && OTA_READECUVER in MASK_OTA_ALL;
  }

  // ---- The C file's own form ----

  class OdcLock {
    var lockflag: Bits

    constructor ()
      ensures lockflag == {}
    {
      lockflag := {};
    }

    /** `setPP_lock_odcmtxlock`; the surrounding mutex makes it one step. */
    method Set(obj: nat) returns (ret: int)
      requires obj < OBJ_MAX
      modifies this
      ensures lockflag == FlagAfter(old(lockflag), obj) && ret == Answer(old(lockflag), obj)
    {
      var mask := Mask(obj);
      var code := OK;
      if lockflag == {} || Grants(lockflag, obj) {
        lockflag := lockflag + mask;
      } else {
        code := Refusal(lockflag, obj);
      }
      ret := AsUnsignedChar(code);
    }

    /** `clearPP_lock_odcmtxlock`. */
    method Clear(obj: nat)
      requires obj < OBJ_MAX
      modifies this
      ensures lockflag == Step(old(lockflag), Release(obj))
    {
      var mask := Mask(obj);
      lockflag := lockflag - mask;
    }
  }
}
