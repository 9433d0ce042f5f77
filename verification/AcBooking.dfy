/** The air-conditioning booking table of PP_ACCtrl.c: ten slots that stand for a finite map from
    booking id to booking, kept in step with saved storage by a dirty bit. */
module AcBooking {
  import opened CtrlLog

  const ACC_APPOINT_NUM: nat := 10
  const PP_LOCK_OK: int := 0
  const PP_RMTCTRL_EXECUTEDFINISH: nat := 2
  const PP_RMTCTRL_EXECUTEDFAIL: nat := 3

  datatype Slot = Slot(validFlg: nat, id: nat, hour: nat, min: nat, period: bv8, eventId: nat, bookup: nat)

  /** What a booking is, apart from where it is kept. */
  datatype Booking = Booking(hour: nat, min: nat, period: bv8, eventId: nat)

  function BookingOf(s: Slot): Booking {
    Booking(s.hour, s.min, s.period, s.eventId)
  }

  predicate Used(s: Slot) {
    s.validFlg == 1
  }

  /** No two valid slots share an id. */
  ghost predicate Unique(slots: seq<Slot>) {
    forall i, j :: 0 <= i < j < |slots| && Used(slots[i]) && Used(slots[j]) ==> slots[i].id != slots[j].id
  }

  /** `PP_ACC_Id_invalid`: the id is taken. */
  predicate IdTaken(slots: seq<Slot>, id: nat) {
    exists i :: 0 <= i < |slots| && Used(slots[i]) && slots[i].id == id
  }

  /** `t` is the map the slots stand for. */
  ghost predicate Represents(slots: seq<Slot>, t: map<nat, Booking>) {
    && (forall i :: 0 <= i < |slots| && Used(slots[i]) ==> slots[i].id in t && t[slots[i].id] == BookingOf(slots[i]))
    && (forall id :: id in t ==> IdTaken(slots, id))
  }

  ghost function Table(slots: seq<Slot>): (t: map<nat, Booking>)
    requires Unique(slots)
    ensures Represents(slots, t)
  {
    map i | 0 <= i < |slots| && Used(slots[i]) :: slots[i].id := BookingOf(slots[i])
  }

  lemma TableIs(slots: seq<Slot>, t: map<nat, Booking>)
    requires Unique(slots) && Represents(slots, t)
    ensures Table(slots) == t
  {
    var u := Table(slots);
    forall id | id in u
      ensures id in t && t[id] == u[id]
    {
      assert IdTaken(slots, id);
    }
    forall id | id in t
      ensures id in u
    {
      assert IdTaken(slots, id);
    }
  }

  /** `PP_ACC_Appoint_invalid`: the first free slot, or the length when there is none (-1 in C). */
  function FirstFree(slots: seq<Slot>): (k: nat)
    ensures k <= |slots|
    ensures k < |slots| ==> slots[k].validFlg == 0
    ensures forall j :: 0 <= j < k ==> slots[j].validFlg != 0
  {
    if slots == [] || slots[0].validFlg == 0 then 0
    else
      var k := FirstFree(slots[1..]);
      assert forall j :: 0 < j < k + 1 ==> slots[j] == slots[1..][j - 1];
      k + 1
  }

  function Fill(s: Slot, id: nat, b: Booking): Slot {
    s.(validFlg := 1, id := id, hour := b.hour, min := b.min, period := b.period, eventId := b.eventId)
  }

  function Insert(slots: seq<Slot>, id: nat, b: Booking): (r: seq<Slot>)
    ensures |r| == |slots|
  {
    var k := FirstFree(slots);
    if IdTaken(slots, id) || k == |slots| then slots else slots[k := Fill(slots[k], id, b)]
  }

  function Invalidate(s: Slot): Slot {
    s.(validFlg := 0)
  }

  /** The TSP's cancel loop, which goes on after a hit. */
  function CancelAll(slots: seq<Slot>, id: nat): (r: seq<Slot>)
    ensures |r| == |slots|
  {
    seq(|slots|, i requires 0 <= i < |slots| =>
      if Used(slots[i]) && slots[i].id == id then Invalidate(slots[i]) else slots[i])
  }

  /** The shell's cancel loop, which stops at the first hit. */
  function CancelFirst(slots: seq<Slot>, id: nat): (r: seq<Slot>)
    ensures |r| == |slots|
  {
    if slots == [] then []
    else if Used(slots[0]) && slots[0].id == id then [Invalidate(slots[0])] + slots[1..]
    else [slots[0]] + CancelFirst(slots[1..], id)
  }

  /** The valid slots with the id; the TSP's loop reports each of them. */
  function Hits(slots: seq<Slot>, id: nat): nat {
    if slots == [] then 0
    else Hits(slots[..|slots| - 1], id) + if Used(slots[|slots| - 1]) && slots[|slots| - 1].id == id then 1 else 0
  }

  lemma HitsMore(slots: seq<Slot>, i: nat, id: nat)
    requires i < |slots|
    ensures Hits(slots[..i + 1], id) == Hits(slots[..i], id) + if Used(slots[i]) && slots[i].id == id then 1 else 0
  {
    assert slots[..i + 1][..i] == slots[..i];
  }

  lemma {:induction false} HitsUnique(slots: seq<Slot>, id: nat)
    requires Unique(slots)
    ensures Hits(slots, id) == if IdTaken(slots, id) then 1 else 0
  {
    if slots != [] {
      var n := |slots| - 1;
      HitsUnique(slots[..n], id);
      assert forall i :: 0 <= i < n ==> slots[..n][i] == slots[i];
      assert IdTaken(slots, id) <==> IdTaken(slots[..n], id) || (Used(slots[n]) && slots[n].id == id);
    }
  }

  lemma {:induction false} NoHits(slots: seq<Slot>, id: nat)
    requires Hits(slots, id) == 0
    ensures CancelAll(slots, id) == slots
  {
    if slots != [] {
      var n := |slots| - 1;
      NoHits(slots[..n], id);
      forall i | 0 <= i < n
        ensures CancelAll(slots, id)[i] == slots[i]
      {
        assert CancelAll(slots[..n], id)[i] == slots[..n][i] == slots[i];
      }
    }
  }

  lemma {:induction false} CancelFirstAt(slots: seq<Slot>, id: nat, i: nat)
    requires i <= |slots| && forall j :: 0 <= j < i ==> !(Used(slots[j]) && slots[j].id == id)
    ensures i == |slots| ==> CancelFirst(slots, id) == slots
    ensures i < |slots| && Used(slots[i]) && slots[i].id == id ==>
      CancelFirst(slots, id) == slots[i := Invalidate(slots[i])]
  {
    if i > 0 {
      CancelFirstAt(slots[1..], id, i - 1);
      assert slots == [slots[0]] + slots[1..];
    }
  }

  // ---- The slots refine a bounded map ----

  /** A fresh id is added and nothing else changes, unless the table is full; a taken id changes
      nothing. */
  lemma InsertRefines(slots: seq<Slot>, id: nat, b: Booking)
    requires Unique(slots)
    ensures Unique(Insert(slots, id, b))
    ensures Table(Insert(slots, id, b)) ==
      if id in Table(slots) || FirstFree(slots) == |slots| then Table(slots) else Table(slots)[id := b]
  {
    var k := FirstFree(slots);
    assert id in Table(slots) <==> IdTaken(slots, id);
    if !IdTaken(slots, id) && k < |slots| {
      FillRefines(slots, Table(slots), k, id, b);
      TableIs(Insert(slots, id, b), Table(slots)[id := b]);
    }
  }

  lemma FillRefines(slots: seq<Slot>, t: map<nat, Booking>, k: nat, id: nat, b: Booking)
    requires Unique(slots) && Represents(slots, t) && !IdTaken(slots, id)
    requires k < |slots| && slots[k].validFlg == 0
    ensures Unique(slots[k := Fill(slots[k], id, b)])
    ensures Represents(slots[k := Fill(slots[k], id, b)], t[id := b])
  {
    var r := slots[k := Fill(slots[k], id, b)];
    forall x | x in t[id := b]
      ensures IdTaken(r, x)
    {
      if x == id {
        assert Used(r[k]) && r[k].id == x;
      } else {
        assert IdTaken(slots, x);
        var i :| 0 <= i < |slots| && Used(slots[i]) && slots[i].id == x;
        assert Used(r[i]) && r[i].id == x;
      }
    }
  }

  lemma CancelRepresents(slots: seq<Slot>, t: map<nat, Booking>, id: nat)
    requires Unique(slots) && Represents(slots, t)
    ensures Unique(CancelAll(slots, id)) && Represents(CancelAll(slots, id), t - {id})
  {
    var r := CancelAll(slots, id);
    forall x | x in t - {id}
      ensures IdTaken(r, x)
    {
      assert IdTaken(slots, x);
      var i :| 0 <= i < |slots| && Used(slots[i]) && slots[i].id == x;
      assert Used(r[i]) && r[i].id == x;
    }
  }

  lemma CancelRefines(slots: seq<Slot>, id: nat)
    requires Unique(slots)
    ensures Unique(CancelAll(slots, id))
    ensures Table(CancelAll(slots, id)) == Table(slots) - {id}
  {
    CancelRepresents(slots, Table(slots), id);
    TableIs(CancelAll(slots, id), Table(slots) - {id});
  }

  /** The loop without a break and the loop with one have the same effect. */
  lemma {:induction false} CancelLoopsAgree(slots: seq<Slot>, id: nat)
    requires Unique(slots)
    ensures CancelFirst(slots, id) == CancelAll(slots, id)
  {
    if slots != [] {
      if Used(slots[0]) && slots[0].id == id {
        assert forall i :: 0 < i < |slots| ==> CancelAll(slots, id)[i] == slots[i];
      } else {
        assert forall i, j :: 0 <= i < j < |slots[1..]| ==>
          slots[1..][i] == slots[i + 1] && slots[1..][j] == slots[j + 1];
        CancelLoopsAgree(slots[1..], id);
        assert CancelAll(slots, id) == [slots[0]] + CancelAll(slots[1..], id);
      }
    }
  }

  lemma {:induction false} IdsAreBounded(slots: seq<Slot>, ids: set<nat>)
    requires forall id :: id in ids ==> IdTaken(slots, id)
    ensures |ids| <= |slots|
  {
    if slots == [] {
      assert forall id :: id in ids ==> IdTaken(slots, id);
      assert ids == {};
    } else {
      var n := |slots| - 1;
      var rest := ids - {slots[n].id};
      forall id | id in rest
        ensures IdTaken(slots[..n], id)
      {
        assert IdTaken(slots, id);
        var i :| 0 <= i < |slots| && Used(slots[i]) && slots[i].id == id;
        assert slots[..n][i] == slots[i];
      }
      IdsAreBounded(slots[..n], rest);
      assert ids <= rest + {slots[n].id};
      assert |rest + {slots[n].id}| <= |rest| + 1;
      SubsetIsSmaller(ids, rest + {slots[n].id});
    }
  }

  lemma SubsetIsSmaller(a: set<nat>, b: set<nat>)
    requires a <= b
    ensures |a| <= |b|
  {
    assert b == a + (b - a);
  }

  /** The map is bounded by the number of slots. */
  lemma TableIsBounded(slots: seq<Slot>)
    requires Unique(slots)
    ensures |Table(slots)| <= |slots|
  {
    IdsAreBounded(slots, Table(slots).Keys);
  }

  // ---- The table in use: requests, expiry, dirty bit and storage ----

  /** What became of bookings, in order: a repeating one fires, a one-shot one expires; `asked`
      tells whether the lock let the request through. */
  datatype Entry = Inserted(id: nat) | Cancelled(id: nat) | Expired(id: nat, asked: bool) | Fired(id: nat, asked: bool)

  datatype State = State(
    slots: seq<Slot>,
    dataUpdata: bool,
    saved: seq<Slot>,
    saveLost: bool,
    req: bool,
    idle: bool,
    performed: bool,
    delaytime: nat,
    log: seq<Entry>,
    reports: seq<nat>)

  datatype Event =
    | Book(lock: int, id: nat, booking: Booking)
    | TspCancel(lock: int, id: nat)
    | ShellCancel(lock: int, id: nat)
    | MonitorPass(env: Env)
    /** What the controller's main function makes of its request and stage. */
    | Controller(req: bool, idle: bool)

  /** One pass of the monitor: clock and calendar, power state, the lock's answer, and the slots
      at which a save to storage would fail. */
  datatype Env = Env(now: nat, week: nat, hour: nat, min: nat, powerOff: bool, lock: int, failing: set<nat>)

  predicate TimeMatches(s: Slot, e: Env) {
    e.hour == s.hour && e.min == s.min
  }

  function BookStep(s: State, id: nat, b: Booking): State {
    if IdTaken(s.slots, id) then s.(reports := s.reports + [PP_RMTCTRL_EXECUTEDFAIL])
    else s.(slots := Insert(s.slots, id, b), dataUpdata := true,
            reports := s.reports + [PP_RMTCTRL_EXECUTEDFINISH],
            log := if FirstFree(s.slots) < |s.slots| then s.log + [Inserted(id)] else s.log)
  }

  function Times<T>(x: T, n: nat): (r: seq<T>)
    ensures |r| == n && forall i :: 0 <= i < n ==> r[i] == x
  {
    seq(n, _ => x)
  }

  lemma TimesMore<T>(s: seq<T>, x: T, n: nat)
    ensures s + Times(x, n) + [x] == s + Times(x, n + 1)
  {
  }

  function CancelStep(s: State, slots': seq<Slot>, id: nat, hits: nat): State {
    if hits == 0 then s
    else s.(slots := slots', dataUpdata := true, reports := s.reports + Times(PP_RMTCTRL_EXECUTEDFINISH, hits),
            log := s.log + Times(Cancelled(id), hits))
  }

  /** The booking part of the monitor for one slot. */
  function CheckSlot(s: State, i: nat, e: Env): State
    requires i < |s.slots|
  {
    var slot := s.slots[i];
    if !Used(slot) then s
    else if Repeating(slot.period) then
      if !OnDay(slot.period, e.week) then s
      else if TimeMatches(slot, e) then
        s.(req := s.req || (!s.performed && e.lock == PP_LOCK_OK), performed := true, delaytime := e.now,
           log := if s.performed then s.log else s.log + [Fired(slot.id, e.lock == PP_LOCK_OK)])
      else s.(performed := s.performed && Elapsed(e.now, s.delaytime) <= 3000)
    else if TimeMatches(slot, e) then
      s.(req := s.req || e.lock == PP_LOCK_OK, dataUpdata := true, slots := s.slots[i := Invalidate(slot)],
         log := s.log + [Expired(slot.id, e.lock == PP_LOCK_OK)])
    else s
  }

  function Mark(slots: seq<Slot>, i: nat): (r: seq<Slot>)
    requires i < |slots|
    ensures |r| == |slots|
  {
    if slots[i].bookup == 1 then slots[i := slots[i].(bookup := 2)] else slots
  }

  /** The saving part: with the power off or the controller asleep, pending changes are saved. */
  function SaveSlot(s: State, i: nat, e: Env): State
    requires i < |s.slots|
  {
    if (e.powerOff || (!s.req && s.idle)) && s.dataUpdata then
      var slots' := Mark(s.slots, i);
      s.(slots := slots', dataUpdata := false,
         saved := if i in e.failing then s.saved else slots', saveLost := i in e.failing)
    else s
  }

  function Pass(s: State, e: Env, n: nat): (s': State)
    requires n <= |s.slots|
    ensures |s'.slots| == |s.slots|
  {
    if n == 0 then s else SaveSlot(CheckSlot(Pass(s, e, n - 1), n - 1, e), n - 1, e)
  }

  function Step(s: State, ev: Event): (s': State)
    ensures |s'.slots| == |s.slots|
  {
    match ev
    case Book(lock, id, b) => if lock == PP_LOCK_OK then BookStep(s, id, b) else s
    case TspCancel(lock, id) =>
      if lock == PP_LOCK_OK then CancelStep(s, CancelAll(s.slots, id), id, Hits(s.slots, id)) else s
    case ShellCancel(lock, id) =>
      if lock != PP_LOCK_OK then s
      else CancelStep(s, CancelFirst(s.slots, id), id, if IdTaken(s.slots, id) then 1 else 0)
    case MonitorPass(e) => Pass(s, e, |s.slots|)
    case Controller(req, idle) => s.(req := req, idle := idle)
  }

  function Run(s: State, es: seq<Event>): (s': State)
    ensures |s'.slots| == |s.slots|
    decreases |es|
  {
    if es == [] then s else Run(Step(s, es[0]), es[1..])
  }

  /** A table loaded from storage; the load has succeeded. */
  function Loaded(slots: seq<Slot>): State {
    State(slots, false, slots, false, false, true, false, 0, [], [])
  }

  // ---- What every run keeps ----

  function CountIn(log: seq<Entry>, id: nat): nat {
    if log == [] then 0 else CountIn(log[..|log| - 1], id) + if log[|log| - 1] == Inserted(id) then 1 else 0
  }

  predicate Leaves(e: Entry, id: nat) {
    (e.Cancelled? || e.Expired?) && e.id == id
  }

  function CountOut(log: seq<Entry>, id: nat): nat {
    if log == [] then 0 else CountOut(log[..|log| - 1], id) + if Leaves(log[|log| - 1], id) then 1 else 0
  }

  lemma CountMore(log: seq<Entry>, e: Entry, id: nat)
    ensures CountIn(log + [e], id) == CountIn(log, id) + if e == Inserted(id) then 1 else 0
    ensures CountOut(log + [e], id) == CountOut(log, id) + if Leaves(e, id) then 1 else 0
  {
    assert (log + [e])[..|log|] == log;
  }

  /** With the dirty bit clear and no save failed, memory and storage agree. */
  ghost predicate Clean(s: State) {
    !s.dataUpdata && !s.saveLost ==> s.saved == s.slots
  }

  /** Bookings are conserved, id by id: what was there and what was inserted is what is there and
      what was cancelled or has expired. */
  ghost predicate Conserved(s: State, base: map<nat, Booking>)
    requires Unique(s.slots)
  {
    forall id: nat {:trigger CountIn(s.log, id)} ::
      CountIn(s.log, id) + (if id in base then 1 else 0)
      == CountOut(s.log, id) + (if id in Table(s.slots) then 1 else 0)
  }

  ghost predicate Inv(s: State, base: map<nat, Booking>) {
    Unique(s.slots) && Clean(s) && Conserved(s, base)
  }

  /** A step that lets booking `id` in or out and logs it. */
  lemma LoggedKeeps(s: State, s': State, base: map<nat, Booking>, e: Entry)
    requires Inv(s, base) && Unique(s'.slots) && s'.log == s.log + [e] && s'.dataUpdata
    requires e.Inserted? ==> e.id !in Table(s.slots) && Table(s'.slots).Keys == Table(s.slots).Keys + {e.id}
    requires !e.Inserted? ==>
      (e.Cancelled? || e.Expired?) && e.id in Table(s.slots) && Table(s'.slots).Keys == Table(s.slots).Keys - {e.id}
    ensures Inv(s', base)
  {
    forall id: nat
      ensures CountIn(s'.log, id) + (if id in base then 1 else 0)
              == CountOut(s'.log, id) + (if id in Table(s'.slots) then 1 else 0)
    {
      CountMore(s.log, e, id);
      assert CountIn(s.log, id) + (if id in base then 1 else 0)
             == CountOut(s.log, id) + (if id in Table(s.slots) then 1 else 0);
    }
  }

  lemma BookKeepsInv(s: State, base: map<nat, Booking>, id: nat, b: Booking)
    requires Inv(s, base)
    ensures Inv(BookStep(s, id, b), base)
  {
    InsertRefines(s.slots, id, b);
    if !IdTaken(s.slots, id) {
      assert id !in Table(s.slots);
      if FirstFree(s.slots) < |s.slots| {
        LoggedKeeps(s, BookStep(s, id, b), base, Inserted(id));
      }
    }
  }

  lemma CancelKeepsInv(s: State, base: map<nat, Booking>, id: nat)
    requires Inv(s, base)
    ensures Inv(CancelStep(s, CancelAll(s.slots, id), id, if IdTaken(s.slots, id) then 1 else 0), base)
  {
    CancelRefines(s.slots, id);
    if IdTaken(s.slots, id) {
      var s' := CancelStep(s, CancelAll(s.slots, id), id, 1);
      assert Times(Cancelled(id), 1) == [Cancelled(id)];
      LoggedKeeps(s, s', base, Cancelled(id));
    }
  }

  lemma ExpireIsCancel(slots: seq<Slot>, i: nat)
    requires Unique(slots) && i < |slots| && Used(slots[i])
    ensures slots[i := Invalidate(slots[i])] == CancelAll(slots, slots[i].id)
  {
  }

  /** Slots, dirty bit, storage and the comings and goings are what the invariant is about. */
  lemma QuietKeepsInv(s: State, s': State, base: map<nat, Booking>)
    requires Inv(s, base)
    requires s'.slots == s.slots && s'.dataUpdata == s.dataUpdata && s'.saved == s.saved && s'.saveLost == s.saveLost
    requires s'.log == s.log || exists e: Entry :: e.Fired? && s'.log == s.log + [e]
    ensures Inv(s', base)
  {
    if s'.log != s.log {
      var e: Entry :| e.Fired? && s'.log == s.log + [e];
      forall id: nat
        ensures CountIn(s'.log, id) == CountIn(s.log, id) && CountOut(s'.log, id) == CountOut(s.log, id)
      {
        CountMore(s.log, e, id);
      }
    }
  }

  lemma CheckSlotKeepsInv(s: State, base: map<nat, Booking>, i: nat, e: Env)
    requires Inv(s, base) && i < |s.slots|
    ensures Inv(CheckSlot(s, i, e), base)
  {
    var slot, s' := s.slots[i], CheckSlot(s, i, e);
    if Used(slot) && !Repeating(slot.period) && TimeMatches(slot, e) {
      ExpireIsCancel(s.slots, i);
      CancelRefines(s.slots, slot.id);
      LoggedKeeps(s, s', base, Expired(slot.id, e.lock == PP_LOCK_OK));
    } else {
      QuietKeepsInv(s, s', base);
    }
  }

  lemma MarkRepresents(slots: seq<Slot>, t: map<nat, Booking>, i: nat)
    requires Unique(slots) && Represents(slots, t) && i < |slots|
    ensures Unique(Mark(slots, i)) && Represents(Mark(slots, i), t)
  {
    var r := Mark(slots, i);
    forall x | x in t
      ensures IdTaken(r, x)
    {
      assert IdTaken(slots, x);
      var j :| 0 <= j < |slots| && Used(slots[j]) && slots[j].id == x;
      assert Used(r[j]) && r[j].id == x;
    }
  }

  lemma MarkKeepsTable(slots: seq<Slot>, i: nat)
    requires Unique(slots) && i < |slots|
    ensures Unique(Mark(slots, i)) && Table(Mark(slots, i)) == Table(slots)
  {
    MarkRepresents(slots, Table(slots), i);
    TableIs(Mark(slots, i), Table(slots));
  }

  lemma SaveSlotKeepsInv(s: State, base: map<nat, Booking>, i: nat, e: Env)
    requires Inv(s, base) && i < |s.slots|
    ensures Inv(SaveSlot(s, i, e), base)
  {
    MarkKeepsTable(s.slots, i);
  }

  lemma SlotKeepsInv(s: State, base: map<nat, Booking>, i: nat, e: Env)
    requires Inv(s, base) && i < |s.slots|
    ensures Inv(SaveSlot(CheckSlot(s, i, e), i, e), base)
  {
    CheckSlotKeepsInv(s, base, i, e);
    SaveSlotKeepsInv(CheckSlot(s, i, e), base, i, e);
  }

  lemma {:induction false} PassKeepsInv(s: State, base: map<nat, Booking>, e: Env, n: nat)
    requires Inv(s, base) && n <= |s.slots|
    ensures Inv(Pass(s, e, n), base)
  {
    if n > 0 {
      PassKeepsInv(s, base, e, n - 1);
      SlotKeepsInv(Pass(s, e, n - 1), base, n - 1, e);
    }
  }

  lemma StepKeepsInv(s: State, base: map<nat, Booking>, ev: Event)
    requires Inv(s, base)
    ensures Inv(Step(s, ev), base)
  {
    match ev
    case Book(lock, id, b) => BookKeepsInv(s, base, id, b);
    case TspCancel(lock, id) =>
      HitsUnique(s.slots, id);
      CancelKeepsInv(s, base, id);
    case ShellCancel(lock, id) =>
      CancelLoopsAgree(s.slots, id);
      CancelKeepsInv(s, base, id);
    case MonitorPass(e) => PassKeepsInv(s, base, e, |s.slots|);
    case Controller(_, _) =>
  }

  lemma {:induction false} RunKeepsInv(s: State, base: map<nat, Booking>, es: seq<Event>)
    requires Inv(s, base)
    ensures Inv(Run(s, es), base)
    decreases |es|
  {
    if es != [] {
      StepKeepsInv(s, base, es[0]);
      RunKeepsInv(Step(s, es[0]), base, es[1..]);
    }
  }

  /** After a successful load, over every run of inserts, cancels, expiries and saves: no two valid
      slots share an id, memory equals storage whenever the dirty bit is clear and the last save
      worked, and bookings are conserved. */
  lemma EveryRun(slots: seq<Slot>, es: seq<Event>)
    requires Unique(slots)
    ensures Inv(Run(Loaded(slots), es), Table(slots))
  {
    forall id: nat
      ensures CountIn([], id) == 0 && CountOut([], id) == 0
    {
    }
    RunKeepsInv(Loaded(slots), Table(slots), es);
  }

  function CountExpired(log: seq<Entry>, id: nat): nat {
    if log == [] then 0
    else CountExpired(log[..|log| - 1], id) + if log[|log| - 1].Expired? && log[|log| - 1].id == id then 1 else 0
  }

  lemma {:induction false} ExpiredAtMostOut(log: seq<Entry>, id: nat)
    ensures CountExpired(log, id) <= CountOut(log, id)
  {
    if log != [] {
      ExpiredAtMostOut(log[..|log| - 1], id);
    }
  }

  /** A one-shot booking triggers at most once per insertion. */
  lemma OneShotOncePerInsertion(slots: seq<Slot>, es: seq<Event>, id: nat)
    requires Unique(slots)
    ensures CountExpired(Run(Loaded(slots), es).log, id)
            <= CountIn(Run(Loaded(slots), es).log, id) + (if id in Table(slots) then 1 else 0)
  {
    EveryRun(slots, es);
    var s := Run(Loaded(slots), es);
    ExpiredAtMostOut(s.log, id);
    assert CountIn(s.log, id) + (if id in Table(slots) then 1 else 0)
           == CountOut(s.log, id) + (if id in Table(s.slots) then 1 else 0);
  }

  /** A one-shot booking whose time has come leaves the table even when the lock refuses the
      request, which is then lost; it is carried out exactly when the lock lets it through. */
  lemma OneShotCarriedOutIff(s: State, i: nat, e: Env)
    requires Unique(s.slots) && i < |s.slots| && Used(s.slots[i]) && !Repeating(s.slots[i].period)
    requires TimeMatches(s.slots[i], e)
    ensures Unique(CheckSlot(s, i, e).slots)
    ensures Table(CheckSlot(s, i, e).slots) == Table(s.slots) - {s.slots[i].id}
    ensures CheckSlot(s, i, e).req <==> s.req || e.lock == PP_LOCK_OK
    ensures CheckSlot(s, i, e).log == s.log + [Expired(s.slots[i].id, e.lock == PP_LOCK_OK)]
  {
    ExpireIsCancel(s.slots, i);
    CancelRefines(s.slots, s.slots[i].id);
  }

  /** A booking with a fresh id is reported as done even when all slots are taken: the report tells
      whether the table holds the booking exactly when the id is taken or a slot is free. */
  lemma BookReportTrueIff(s: State, id: nat, b: Booking)
    requires Unique(s.slots)
    ensures Unique(BookStep(s, id, b).slots)
    ensures var s' := BookStep(s, id, b);
      (s'.reports[|s.reports|] == PP_RMTCTRL_EXECUTEDFINISH
       <==> Table(s'.slots) == Table(s.slots)[id := b] && id !in Table(s.slots))
      <==> id in Table(s.slots) || FirstFree(s.slots) < |s.slots|
  {
    InsertRefines(s.slots, id, b);
    assert IdTaken(s.slots, id) <==> id in Table(s.slots);
    if id !in Table(s.slots) { assert id in Table(s.slots)[id := b]; }
  }

  // ---- One-shot bookings wait for their minute ----

  /** The slot holds a one-shot booking for this very minute. */
  predicate IsUp(s: Slot, e: Env) {
    Used(s) && !Repeating(s.period) && e.hour == s.hour && e.min == s.min
  }

  /** The expiries of the log, in order. */
  function Expiries(log: seq<Entry>): seq<Entry> {
    if log == [] then []
    else Expiries(log[..|log| - 1]) + if log[|log| - 1].Expired? then [log[|log| - 1]] else []
  }

  lemma ExpiriesMore(log: seq<Entry>, e: Entry)
    ensures Expiries(log + [e]) == Expiries(log) + if e.Expired? then [e] else []
  {
    assert (log + [e])[..|log|] == log;
  }

  /** The first `n` slots whose bookings are up, in slot order, with whether the lock lets them through. */
  function UpBelow(slots: seq<Slot>, e: Env, n: nat): seq<Entry>
    requires n <= |slots|
  {
    if n == 0 then []
    else UpBelow(slots, e, n - 1)
         + if IsUp(slots[n - 1], e) then [Expired(slots[n - 1].id, e.lock == PP_LOCK_OK)] else []
  }

  /** After a pass a slot is as before, but free when its one-shot booking was up. */
  predicate SlotPassed(a: Slot, b: Slot, e: Env) {
    b == a.(bookup := b.bookup, validFlg := if IsUp(a, e) then 0 else a.validFlg)
  }

  /** What the first `n` slots have made of the one-shot bookings. */
  ghost predicate ExpiredTo(s: State, t: State, e: Env, n: nat)
    requires n <= |s.slots|
  {
    && |t.slots| == |s.slots|
    && (forall j :: 0 <= j < n ==> SlotPassed(s.slots[j], t.slots[j], e))
    && (forall j :: n <= j < |s.slots| ==> t.slots[j] == s.slots[j])
    && Expiries(t.log) == Expiries(s.log) + UpBelow(s.slots, e, n)
  }

  lemma CheckExpires(t: State, i: nat, e: Env)
    requires i < |t.slots|
    ensures var u := CheckSlot(t, i, e);
      && u.slots == t.slots[i := u.slots[i]] && SlotPassed(t.slots[i], u.slots[i], e)
      && Expiries(u.log) == Expiries(t.log)
           + if IsUp(t.slots[i], e) then [Expired(t.slots[i].id, e.lock == PP_LOCK_OK)] else []
  {
    ExpiriesMore(t.log, Fired(t.slots[i].id, e.lock == PP_LOCK_OK));
    ExpiriesMore(t.log, Expired(t.slots[i].id, e.lock == PP_LOCK_OK));
  }

  lemma SaveExpiresNothing(t: State, i: nat, e: Env)
    requires i < |t.slots|
    ensures var u := SaveSlot(t, i, e);
      u.log == t.log && u.slots == t.slots[i := t.slots[i].(bookup := u.slots[i].bookup)]
  {
  }

  lemma ExpiredOneMore(s: State, t: State, e: Env, i: nat)
    requires i < |s.slots| && ExpiredTo(s, t, e, i)
    ensures ExpiredTo(s, SaveSlot(CheckSlot(t, i, e), i, e), e, i + 1)
  {
    CheckExpires(t, i, e);
    SaveExpiresNothing(CheckSlot(t, i, e), i, e);
  }

  lemma NoneExpiredYet(s: State, e: Env)
    ensures ExpiredTo(s, s, e, 0)
  {
  }

  /** Over a pass a one-shot booking expires exactly when its hour and minute have come; nothing else
      becomes of the slots, and the expiries are logged in slot order. */
  lemma {:induction false} PassExpires(s: State, e: Env, n: nat)
    requires n <= |s.slots|
    ensures ExpiredTo(s, Pass(s, e, n), e, n)
  {
    if n == 0 {
      NoneExpiredYet(s, e);
    } else {
      PassExpires(s, e, n - 1);
      ExpiredOneMore(s, Pass(s, e, n - 1), e, n - 1);
    }
  }

  // ---- The whole controller as a bounded map ----

  /** The ids of one-shot bookings that are up. */
  ghost function UpIds(t: map<nat, Booking>, e: Env): set<nat> {
    set id | id in t && !Repeating(t[id].period) && e.hour == t[id].hour && e.min == t[id].min
  }

  /** What an event is to a map with room for `capacity` bookings. */
  ghost function MapStep(t: map<nat, Booking>, capacity: nat, ev: Event): map<nat, Booking> {
    match ev
    case Book(lock, id, b) => if lock == PP_LOCK_OK && id !in t && |t| < capacity then t[id := b] else t
    case TspCancel(lock, id) => if lock == PP_LOCK_OK then t - {id} else t
    case ShellCancel(lock, id) => if lock == PP_LOCK_OK then t - {id} else t
    case MonitorPass(e) => t - UpIds(t, e)
    case Controller(_, _) => t
  }

  ghost function MapRun(t: map<nat, Booking>, capacity: nat, es: seq<Event>): map<nat, Booking>
    decreases |es|
  {
    if es == [] then t else MapRun(MapStep(t, capacity, es[0]), capacity, es[1..])
  }

  /** A slot is free or in use and nothing else. */
  ghost predicate Flagged(slots: seq<Slot>) {
    forall i :: 0 <= i < |slots| ==> slots[i].validFlg == 0 || slots[i].validFlg == 1
  }

  lemma PassRepresents(slots: seq<Slot>, after: seq<Slot>, t: map<nat, Booking>, e: Env)
    requires Unique(slots) && Represents(slots, t) && |after| == |slots|
    requires forall j :: 0 <= j < |slots| ==> SlotPassed(slots[j], after[j], e)
    ensures Unique(after) && Represents(after, t - UpIds(t, e))
  {
    forall id | id in t - UpIds(t, e)
      ensures IdTaken(after, id)
    {
      assert IdTaken(slots, id);
      var i :| 0 <= i < |slots| && Used(slots[i]) && slots[i].id == id;
      assert Used(after[i]) && after[i].id == id;
    }
  }

  lemma PassRefines(s: State, e: Env)
    requires Unique(s.slots) && Flagged(s.slots)
    ensures var t := Step(s, MonitorPass(e));
      Unique(t.slots) && Flagged(t.slots) && Table(t.slots) == Table(s.slots) - UpIds(Table(s.slots), e)
  {
    PassExpires(s, e, |s.slots|);
    PassRepresents(s.slots, Pass(s, e, |s.slots|).slots, Table(s.slots), e);
    TableIs(Pass(s, e, |s.slots|).slots, Table(s.slots) - UpIds(Table(s.slots), e));
  }

  lemma {:induction false} AllIds(slots: seq<Slot>, ids: set<nat>)
    requires Unique(slots) && (forall i :: 0 <= i < |slots| ==> Used(slots[i]) && slots[i].id in ids)
    ensures |slots| <= |ids|
  {
    if slots != [] {
      var n := |slots| - 1;
      assert forall i :: 0 <= i < n ==> slots[..n][i] == slots[i];
      AllIds(slots[..n], ids - {slots[n].id});
    }
  }

  lemma FullMap(slots: seq<Slot>)
    requires Unique(slots) && Flagged(slots) && FirstFree(slots) == |slots|
    ensures |Table(slots)| == |slots|
  {
    AllIds(slots, Table(slots).Keys);
    IdsAreBounded(slots, Table(slots).Keys);
  }

  lemma WithoutFree(slots: seq<Slot>, k: nat, ids: set<nat>)
    requires k < |slots| && !Used(slots[k]) && (forall id :: id in ids ==> IdTaken(slots, id))
    ensures |ids| < |slots|
  {
    var rest := slots[..k] + slots[k + 1..];
    forall id | id in ids
      ensures IdTaken(rest, id)
    {
      assert IdTaken(slots, id);
      var i :| 0 <= i < |slots| && Used(slots[i]) && slots[i].id == id;
      assert rest[if i < k then i else i - 1] == slots[i];
    }
    IdsAreBounded(rest, ids);
  }

  /** The table is full exactly when the map is. */
  lemma FullIff(slots: seq<Slot>)
    requires Unique(slots) && Flagged(slots)
    ensures FirstFree(slots) == |slots| <==> |Table(slots)| == |slots|
  {
    if FirstFree(slots) == |slots| {
      FullMap(slots);
    } else {
      WithoutFree(slots, FirstFree(slots), Table(slots).Keys);
    }
  }

  lemma InsertKeepsFlags(slots: seq<Slot>, id: nat, b: Booking)
    requires Flagged(slots)
    ensures Flagged(Insert(slots, id, b))
  {
  }

  lemma BookRefines(s: State, id: nat, b: Booking)
    requires Unique(s.slots) && Flagged(s.slots)
    ensures var t := BookStep(s, id, b);
      && Unique(t.slots) && Flagged(t.slots)
      && Table(t.slots) == MapStep(Table(s.slots), |s.slots|, Book(PP_LOCK_OK, id, b))
      && t.reports == s.reports + ReportsOf(Table(s.slots), Book(PP_LOCK_OK, id, b))
  {
    var t := BookStep(s, id, b);
    assert IdTaken(s.slots, id) <==> id in Table(s.slots);
    assert t.slots == Insert(s.slots, id, b);
    InsertRefines(s.slots, id, b);
    InsertKeepsFlags(s.slots, id, b);
    FullIff(s.slots);
    TableIsBounded(s.slots);
  }

  lemma CancelStepRefines(s: State, id: nat)
    requires Unique(s.slots) && Flagged(s.slots)
    ensures var n := if IdTaken(s.slots, id) then 1 else 0; var t := CancelStep(s, CancelAll(s.slots, id), id, n);
      && Unique(t.slots) && Flagged(t.slots) && Table(t.slots) == Table(s.slots) - {id}
      && t.reports == s.reports + if id in Table(s.slots) then [PP_RMTCTRL_EXECUTEDFINISH] else []
  {
    CancelRefines(s.slots, id);
    assert IdTaken(s.slots, id) <==> id in Table(s.slots);
    if id in Table(s.slots) {
      assert Times(PP_RMTCTRL_EXECUTEDFINISH, 1) == [PP_RMTCTRL_EXECUTEDFINISH];
    } else {
      assert Table(s.slots) - {id} == Table(s.slots);
    }
  }

  /** The reports of an event: an accepted booking is done unless its id was taken, and a cancelling is
      reported exactly when there was something to cancel. */
  function ReportsOf(t: map<nat, Booking>, ev: Event): seq<nat> {
    match ev
    case Book(lock, id, _) =>
      if lock != PP_LOCK_OK then [] else if id in t then [PP_RMTCTRL_EXECUTEDFAIL] else [PP_RMTCTRL_EXECUTEDFINISH]
    case TspCancel(lock, id) => if lock == PP_LOCK_OK && id in t then [PP_RMTCTRL_EXECUTEDFINISH] else []
    case ShellCancel(lock, id) => if lock == PP_LOCK_OK && id in t then [PP_RMTCTRL_EXECUTEDFINISH] else []
    case _ => []
  }

  lemma SlotReportsNothing(s: State, t: State, i: nat, e: Env)
    requires i < |t.slots| && t.reports == s.reports && t.idle == s.idle
    ensures var u := SaveSlot(CheckSlot(t, i, e), i, e); u.reports == s.reports && u.idle == s.idle
  {
  }

  lemma {:induction false} PassReportsNothing(s: State, e: Env, n: nat)
    requires n <= |s.slots|
    ensures Pass(s, e, n).reports == s.reports && Pass(s, e, n).idle == s.idle
  {
    if n == 0 {
      assert Pass(s, e, n) == s;
    } else {
      PassReportsNothing(s, e, n - 1);
      SlotReportsNothing(s, Pass(s, e, n - 1), n - 1, e);
    }
  }

  /** The event does to the slots what it does to the map, and is reported accordingly. */
  ghost predicate Refines(s: State, ev: Event, t: State)
    requires Unique(s.slots)
  {
    && Unique(t.slots) && Flagged(t.slots)
    && Table(t.slots) == MapStep(Table(s.slots), |s.slots|, ev)
    && t.reports == s.reports + ReportsOf(Table(s.slots), ev)
  }

  lemma CancelsRefine(s: State, id: nat)
    requires Unique(s.slots) && Flagged(s.slots)
    ensures Refines(s, TspCancel(PP_LOCK_OK, id), Step(s, TspCancel(PP_LOCK_OK, id)))
    ensures Refines(s, ShellCancel(PP_LOCK_OK, id), Step(s, ShellCancel(PP_LOCK_OK, id)))
  {
    HitsUnique(s.slots, id);
    CancelLoopsAgree(s.slots, id);
    CancelStepRefines(s, id);
  }

  lemma PassStepRefines(s: State, e: Env)
    requires Unique(s.slots) && Flagged(s.slots)
    ensures Refines(s, MonitorPass(e), Step(s, MonitorPass(e)))
  {
    PassRefines(s, e);
    PassReportsNothing(s, e, |s.slots|);
    assert s.reports + [] == s.reports;
  }

  lemma NothingRefines(s: State, ev: Event)
    requires Unique(s.slots) && Flagged(s.slots)
    requires ev.Controller? || (!ev.MonitorPass? && ev.lock != PP_LOCK_OK)
    ensures Refines(s, ev, Step(s, ev))
  {
    assert s.reports + [] == s.reports;
  }

  /** Every event does to the slots what it does to the map, and reports accordingly. */
  lemma StepRefines(s: State, ev: Event)
    requires Unique(s.slots) && Flagged(s.slots)
    ensures Refines(s, ev, Step(s, ev))
  {
    if ev.Controller? || (!ev.MonitorPass? && ev.lock != PP_LOCK_OK) {
      NothingRefines(s, ev);
    } else {
      match ev
      case Book(_, id, b) => BookRefines(s, id, b);
      case TspCancel(_, id) => CancelsRefine(s, id);
      case ShellCancel(_, id) => CancelsRefine(s, id);
      case MonitorPass(e) => PassStepRefines(s, e);
    }
  }

  /** So over every run the ten slots are a map with room for ten bookings. */
  lemma {:induction false} RunRefines(s: State, es: seq<Event>)
    requires Unique(s.slots) && Flagged(s.slots)
    ensures Unique(Run(s, es).slots) && Flagged(Run(s, es).slots)
    ensures Table(Run(s, es).slots) == MapRun(Table(s.slots), |s.slots|, es)
    decreases |es|
  {
    if es != [] {
      StepRefines(s, es[0]);
      RunRefines(Step(s, es[0]), es[1..]);
    }
  }

  /** The event takes the booking with this id out of the map. */
  predicate TakesOut(ev: Event, id: nat, b: Booking) {
    match ev
    case TspCancel(lock, x) => lock == PP_LOCK_OK && x == id
    case ShellCancel(lock, x) => lock == PP_LOCK_OK && x == id
    case MonitorPass(e) => !Repeating(b.period) && e.hour == b.hour && e.min == b.min
    case _ => false
  }

  /** A booking stays in the table over every run in which it is not cancelled and, being a one-shot
      booking, its minute does not come; and then it does not expire. */
  lemma {:induction false} BookingStays(s: State, es: seq<Event>, id: nat, b: Booking)
    requires Unique(s.slots) && Flagged(s.slots) && id in Table(s.slots) && Table(s.slots)[id] == b
    requires forall k :: 0 <= k < |es| ==> !TakesOut(es[k], id, b)
    ensures Unique(Run(s, es).slots)
    ensures id in Table(Run(s, es).slots) && Table(Run(s, es).slots)[id] == b
    decreases |es|
  {
    if es != [] {
      StepKeepsBooking(s, es[0], id, b);
      BookingStays(Step(s, es[0]), es[1..], id, b);
    }
  }

  lemma StepKeepsBooking(s: State, ev: Event, id: nat, b: Booking)
    requires Unique(s.slots) && Flagged(s.slots) && id in Table(s.slots) && Table(s.slots)[id] == b
    requires !TakesOut(ev, id, b)
    ensures var t := Step(s, ev);
      Unique(t.slots) && Flagged(t.slots) && id in Table(t.slots) && Table(t.slots)[id] == b
  {
    StepRefines(s, ev);
    MapKeepsBooking(Table(s.slots), |s.slots|, ev, id, b);
  }

  lemma MapKeepsBooking(t: map<nat, Booking>, capacity: nat, ev: Event, id: nat, b: Booking)
    requires id in t && t[id] == b && !TakesOut(ev, id, b)
    ensures id in MapStep(t, capacity, ev) && MapStep(t, capacity, ev)[id] == b
  {
  }

  lemma {:induction false} UpIsUp(slots: seq<Slot>, e: Env, n: nat, x: Entry)
    requires n <= |slots| && x in UpBelow(slots, e, n)
    ensures exists i :: 0 <= i < n && IsUp(slots[i], e) && x == Expired(slots[i].id, e.lock == PP_LOCK_OK)
  {
    if n > 0 && !(IsUp(slots[n - 1], e) && x == Expired(slots[n - 1].id, e.lock == PP_LOCK_OK)) {
      UpIsUp(slots, e, n - 1, x);
    }
  }

  lemma OnlyPassesExpire(s: State, ev: Event)
    requires !ev.MonitorPass?
    ensures Expiries(Step(s, ev).log) == Expiries(s.log)
  {
    match ev
    case Book(_, id, b) => BookExpiresNothing(s, id, b);
    case TspCancel(_, id) => CancelExpiresNothing(s.log, id, Hits(s.slots, id));
    case ShellCancel(_, id) => CancelExpiresNothing(s.log, id, if IdTaken(s.slots, id) then 1 else 0);
    case Controller(_, _) =>
  }

  lemma BookExpiresNothing(s: State, id: nat, b: Booking)
    ensures Expiries(BookStep(s, id, b).log) == Expiries(s.log)
  {
    var log := BookStep(s, id, b).log;
    assert log == s.log || log == s.log + [Inserted(id)];
    ExpiriesMore(s.log, Inserted(id));
  }

  lemma {:induction false} CancelExpiresNothing(log: seq<Entry>, id: nat, n: nat)
    ensures Expiries(log + Times(Cancelled(id), n)) == Expiries(log)
  {
    if n == 0 {
      assert log + Times(Cancelled(id), 0) == log;
    } else {
      CancelExpiresNothing(log, id, n - 1);
      TimesMore(log, Cancelled(id), n - 1);
      ExpiriesMore(log + Times(Cancelled(id), n - 1), Cancelled(id));
    }
  }

  /** Every new expiry of a run comes from a pass at the hour and minute of a one-shot booking that the
      table held under that id when the pass came. */
  lemma {:induction false} ExpiresInItsMinute(s: State, es: seq<Event>, x: Entry) returns (k: nat)
    requires Unique(s.slots) && Flagged(s.slots)
    requires x in Expiries(Run(s, es).log) && x !in Expiries(s.log)
    ensures k < |es| && es[k].MonitorPass? && x.Expired? && x.asked == (es[k].env.lock == PP_LOCK_OK)
    ensures var t := Run(s, es[..k]);
      && Unique(t.slots) && x.id in Table(t.slots) && !Repeating(Table(t.slots)[x.id].period)
      && es[k].env.hour == Table(t.slots)[x.id].hour && es[k].env.min == Table(t.slots)[x.id].min
    decreases |es|
  {
    var u := Step(s, es[0]);
    StepRefines(s, es[0]);
    if x in Expiries(u.log) {
      k := 0;
      NewExpiry(s, es[0], x);
      assert es[..0] == [];
    } else {
      k := ExpiresInItsMinute(u, es[1..], x);
      k := k + 1;
      assert es[..k][0] == es[0] && es[..k][1..] == es[1..][..k - 1];
    }
  }

  lemma NewExpiry(s: State, ev: Event, x: Entry)
    requires Unique(s.slots) && x in Expiries(Step(s, ev).log) && x !in Expiries(s.log)
    ensures ev.MonitorPass? && x.Expired? && x.asked == (ev.env.lock == PP_LOCK_OK)
    ensures var t := Table(s.slots);
      x.id in t && !Repeating(t[x.id].period) && ev.env.hour == t[x.id].hour && ev.env.min == t[x.id].min
  {
    if ev.MonitorPass? {
      PassExpires(s, ev.env, |s.slots|);
      UpIsUp(s.slots, ev.env, |s.slots|, x);
    } else {
      OnlyPassesExpire(s, ev);
    }
  }

  // ---- When pending changes are saved ----

  /** Something has changed that storage does not know of, or changes in this pass. */
  ghost predicate PendingIn(s: State, e: Env, n: nat)
    requires n <= |s.slots|
  {
    s.dataUpdata || UpBelow(s.slots, e, n) != []
  }

  lemma {:induction false} RequestOnlyGrows(s: State, e: Env, n: nat)
    requires 0 < n <= |s.slots|
    ensures Pass(s, e, n - 1).req ==> CheckSlot(Pass(s, e, n - 1), n - 1, e).req
    ensures Pass(s, e, n).req == CheckSlot(Pass(s, e, n - 1), n - 1, e).req
  {
  }

  lemma SlotIsSaved(t: State, i: nat, e: Env)
    requires i < |t.slots| && i !in e.failing && (e.powerOff || (t.idle && !CheckSlot(t, i, e).req))
    ensures var u := SaveSlot(CheckSlot(t, i, e), i, e);
      && !u.dataUpdata
      && if t.dataUpdata || IsUp(t.slots[i], e) then
           u.saved == u.slots && !u.saveLost
           && u.slots[i].bookup == if t.slots[i].bookup == 1 then 2 else t.slots[i].bookup
         else u.saved == t.saved && u.saveLost == t.saveLost && u.slots == t.slots
  {
  }

  /** A pass with the power off, or asleep to its end, saves all that is pending, its own expiries
      included; when nothing is pending storage stays as it is. */
  lemma {:induction false} PassSaves(s: State, e: Env, n: nat)
    requires 0 < n <= |s.slots| && (forall i: nat :: i < n ==> i !in e.failing)
    requires e.powerOff || (s.idle && !Pass(s, e, n).req)
    ensures var t := Pass(s, e, n);
      && !t.dataUpdata
      && if PendingIn(s, e, n) then t.saved == t.slots && !t.saveLost
         else t.saved == s.saved && t.saveLost == s.saveLost
  {
    var i := n - 1;
    var t := Pass(s, e, i);
    RequestOnlyGrows(s, e, n);
    PassReportsNothing(s, e, i);
    PassExpires(s, e, i);
    if i > 0 { PassSaves(s, e, i); }
    SlotIsSaved(t, i, e);
  }

  /** A pass with the power on that finds a request pending or the controller at work saves nothing. */
  lemma {:induction false} PassKeepsPending(s: State, e: Env, n: nat)
    requires n <= |s.slots| && !e.powerOff && (s.req || !s.idle)
    ensures var t := Pass(s, e, n);
      && t.saved == s.saved && t.saveLost == s.saveLost && (s.req ==> t.req) && t.idle == s.idle
      && t.dataUpdata == PendingIn(s, e, n)
  {
    if n > 0 {
      PassKeepsPending(s, e, n - 1);
      PassExpires(s, e, n - 1);
      SlotKeepsPending(Pass(s, e, n - 1), n - 1, e);
    }
  }

  lemma SlotKeepsPending(t: State, i: nat, e: Env)
    requires i < |t.slots| && !e.powerOff && (t.req || !t.idle)
    ensures var u := SaveSlot(CheckSlot(t, i, e), i, e);
      && u.saved == t.saved && u.saveLost == t.saveLost && (t.req ==> u.req) && u.idle == t.idle
      && u.dataUpdata == (t.dataUpdata || IsUp(t.slots[i], e))
  {
  }

  /** What the controller has made of its request and stage counts in the next pass: asleep, the pass saves
      unless it asks itself; at work, it does not. */
  lemma ControllerCounts(s: State, req: bool, idle: bool, e: Env)
    requires |s.slots| > 0 && e.failing == {} && !e.powerOff
    ensures var t := Step(Step(s, Controller(req, idle)), MonitorPass(e));
      var asks := e.lock == PP_LOCK_OK && (UpBelow(s.slots, e, |s.slots|) != []
                                           || FiresBelow(Step(s, Controller(req, idle)), e, |s.slots|));
      && (!req && idle && !asks ==> !t.dataUpdata)
      && (req || !idle ==> t.saved == s.saved && t.dataUpdata == PendingIn(s, e, |s.slots|))
  {
    var c := Step(s, Controller(req, idle));
    PassAsksIff(c, e, |c.slots|);
    if req || !idle {
      PassKeepsPending(c, e, |c.slots|);
    } else if !c.req && !Pass(c, e, |c.slots|).req {
      PassSaves(c, e, |c.slots|);
    }
  }

  /** After loading, memory is storage, nothing is asked for and no flag is up. */
  lemma StartsLoaded(slots: seq<Slot>)
    ensures var s := Loaded(slots);
      && s.slots == s.saved == slots && !s.dataUpdata && !s.saveLost && !s.req && s.idle && !s.performed
      && s.log == [] && s.reports == []
  {
  }

  // ---- When a pass asks for the air conditioning ----

  /** A pass leaves a request exactly when there was one, or the lock lets through a one-shot booking that is
      up or a repeating one that fires. */
  lemma {:induction false} PassAsksIff(s: State, e: Env, n: nat)
    requires n <= |s.slots|
    ensures Pass(s, e, n).req
            <==> s.req || (e.lock == PP_LOCK_OK && (UpBelow(s.slots, e, n) != [] || FiresBelow(s, e, n)))
  {
    if n > 0 {
      var i := n - 1;
      PassAsksIff(s, e, i);
      PassExpires(s, e, i);
      PassGetsTo(s, e, i);
      SlotAsksIff(s, Pass(s, e, i), e, i);
      OneFires(s, e, i);
    }
  }

  lemma SlotAsksIff(s: State, t: State, e: Env, i: nat)
    requires i < |s.slots| && SameDue(s, t) && FlagAfter(s, t, e, i) && t.slots[i] == s.slots[i]
    ensures SaveSlot(CheckSlot(t, i, e), i, e).req
            <==> t.req || (e.lock == PP_LOCK_OK && (IsUp(s.slots[i], e) || FiresAt(s, e, i)))
  {
  }

  // ---- Repeating bookings share one flag ----

  predicate DueToday(s: Slot, e: Env) {
    Used(s) && Repeating(s.period) && OnDay(s.period, e.week)
  }

  /** Some due slot below `n` is at its minute, or is not. */
  predicate MatchBelow(slots: seq<Slot>, e: Env, n: nat)
    requires n <= |slots|
  {
    exists j :: 0 <= j < n && DueToday(slots[j], e) && TimeMatches(slots[j], e)
  }

  predicate MissBelow(slots: seq<Slot>, e: Env, n: nat)
    requires n <= |slots|
  {
    exists j :: 0 <= j < n && DueToday(slots[j], e) && !TimeMatches(slots[j], e)
  }

  /** A slot below `n` fires: the first at its minute, with the flag down or put down, after a pause
      of more than 3 s, by a lower slot that is due at another minute. */
  predicate FiresBelow(s: State, e: Env, n: nat)
    requires n <= |s.slots|
  {
    exists i :: 0 <= i < n && FiresAt(s, e, i)
  }

  predicate FiresAt(s: State, e: Env, i: nat)
    requires i < |s.slots|
  {
    && DueToday(s.slots[i], e) && TimeMatches(s.slots[i], e) && !MatchBelow(s.slots, e, i)
    && (!s.performed || (Elapsed(e.now, s.delaytime) > 3000 && MissBelow(s.slots, e, i)))
  }

  /** The repeating bookings that fired, in order. */
  function Firings(log: seq<Entry>): seq<Entry> {
    if log == [] then []
    else Firings(log[..|log| - 1]) + if log[|log| - 1].Fired? then [log[|log| - 1]] else []
  }

  lemma FiringsMore(log: seq<Entry>, e: Entry)
    ensures Firings(log + [e]) == Firings(log) + if e.Fired? then [e] else []
  {
    assert (log + [e])[..|log|] == log;
  }

  /** Where a pass has got to after `n` slots: the repeating bookings are what they were, ... */
  ghost predicate SameDue(s: State, t: State) {
    && |t.slots| == |s.slots|
    && forall j :: 0 <= j < |s.slots| ==> SameBooking(s.slots[j], t.slots[j])
  }

  predicate SameBooking(a: Slot, b: Slot) {
    && b.id == a.id && BookingOf(b) == BookingOf(a)
    && (Repeating(a.period) ==> b.validFlg == a.validFlg)
  }

  /** ... and the flag and its delay are what the slots passed have made of them. */
  ghost predicate FlagAfter(s: State, t: State, e: Env, n: nat)
    requires n <= |s.slots|
  {
    if MatchBelow(s.slots, e, n) then t.performed && t.delaytime == e.now
    else t.delaytime == s.delaytime
         && (t.performed <==> s.performed && !(MissBelow(s.slots, e, n) && Elapsed(e.now, s.delaytime) > 3000))
  }

  lemma SlotKeepsDue(s: State, i: nat, e: Env)
    requires i < |s.slots|
    ensures SameDue(s, CheckSlot(s, i, e)) && SameDue(s, SaveSlot(s, i, e))
  {
  }

  lemma SameDueTwice(s: State, t: State, u: State)
    requires SameDue(s, t) && SameDue(t, u)
    ensures SameDue(s, u)
  {
    assert forall j :: 0 <= j < |s.slots| ==>
      SameBooking(s.slots[j], t.slots[j]) && SameBooking(t.slots[j], u.slots[j]);
  }

  lemma SlotFlag(s: State, t: State, i: nat, e: Env)
    requires i < |s.slots| && SameDue(s, t) && FlagAfter(s, t, e, i)
    ensures FlagAfter(s, CheckSlot(t, i, e), e, i + 1)
  {
  }

  /** The entry of slot `i`, if it fires, and the entries of the slots below `n` that do. */
  function FiredAt(s: State, e: Env, i: nat): seq<Entry>
    requires i < |s.slots|
  {
    if FiresAt(s, e, i) then [Fired(s.slots[i].id, e.lock == PP_LOCK_OK)] else []
  }

  function FiredIn(s: State, e: Env, n: nat): seq<Entry>
    requires n <= |s.slots|
  {
    if n == 0 then [] else FiredIn(s, e, n - 1) + FiredAt(s, e, n - 1)
  }

  /** What one slot logs of the repeating bookings. */
  lemma SlotLogs(t: State, i: nat, e: Env)
    requires i < |t.slots|
    ensures var slot := t.slots[i];
      Firings(CheckSlot(t, i, e).log) == Firings(t.log)
        + if DueToday(slot, e) && TimeMatches(slot, e) && !t.performed then [Fired(slot.id, e.lock == PP_LOCK_OK)]
          else []
  {
    FiringsMore(t.log, Fired(t.slots[i].id, e.lock == PP_LOCK_OK));
    FiringsMore(t.log, Expired(t.slots[i].id, e.lock == PP_LOCK_OK));
  }

  lemma SlotFires(s: State, t: State, i: nat, e: Env)
    requires i < |s.slots| && SameDue(s, t) && FlagAfter(s, t, e, i)
    ensures Firings(CheckSlot(t, i, e).log) == Firings(t.log) + FiredAt(s, e, i)
  {
    SlotLogs(t, i, e);
    assert SameBooking(s.slots[i], t.slots[i]);
  }

  lemma {:induction false} NoneFired(s: State, e: Env, n: nat)
    requires n <= |s.slots| && !FiresBelow(s, e, n)
    ensures FiredIn(s, e, n) == []
  {
    if n > 0 {
      OneFires(s, e, n - 1);
      NoneFired(s, e, n - 1);
    }
  }

  lemma {:induction false} OneFired(s: State, e: Env, n: nat, i: nat)
    requires i < n <= |s.slots| && FiresAt(s, e, i)
    ensures FiredIn(s, e, n) == [Fired(s.slots[i].id, e.lock == PP_LOCK_OK)]
  {
    OneFires(s, e, n - 1);
    if i == n - 1 {
      NoneFired(s, e, n - 1);
    } else {
      assert FiresBelow(s, e, n - 1);
      OneFired(s, e, n - 1, i);
    }
  }

  lemma FiredIsOne(s: State, e: Env, n: nat)
    requires n <= |s.slots|
    ensures !FiresBelow(s, e, n) ==> FiredIn(s, e, n) == []
    ensures forall i :: 0 <= i < n && FiresAt(s, e, i) ==>
      FiredIn(s, e, n) == [Fired(s.slots[i].id, e.lock == PP_LOCK_OK)]
  {
    if !FiresBelow(s, e, n) { NoneFired(s, e, n); }
    forall i | 0 <= i < n && FiresAt(s, e, i)
      ensures FiredIn(s, e, n) == [Fired(s.slots[i].id, e.lock == PP_LOCK_OK)]
    {
      OneFired(s, e, n, i);
    }
  }

  /** What the first `n` slots have made of the pass. */
  ghost predicate PassedTo(s: State, t: State, e: Env, n: nat)
    requires n <= |s.slots|
  {
    SameDue(s, t) && FlagAfter(s, t, e, n) && Firings(t.log) == Firings(s.log) + FiredIn(s, e, n)
  }

  lemma SlotPasses(s: State, t: State, i: nat, e: Env)
    requires i < |s.slots| && PassedTo(s, t, e, i)
    ensures i < |t.slots| && PassedTo(s, SaveSlot(CheckSlot(t, i, e), i, e), e, i + 1)
  {
    SlotKeepsDue(t, i, e);
    SlotKeepsDue(CheckSlot(t, i, e), i, e);
    SameDueTwice(s, t, CheckSlot(t, i, e));
    SameDueTwice(s, CheckSlot(t, i, e), SaveSlot(CheckSlot(t, i, e), i, e));
    SlotFlag(s, t, i, e);
    SlotFires(s, t, i, e);
  }

  lemma NoneYet(s: State, e: Env)
    ensures PassedTo(s, s, e, 0)
  {
  }

  lemma {:induction false} PassGetsTo(s: State, e: Env, n: nat)
    requires n <= |s.slots|
    ensures PassedTo(s, Pass(s, e, n), e, n)
  {
    if n == 0 {
      NoneYet(s, e);
    } else {
      PassGetsTo(s, e, n - 1);
      SlotPasses(s, Pass(s, e, n - 1), n - 1, e);
    }
  }

  /** Of all the slots a pass fires at most one, and logs it with whether the lock let it through. */
  lemma PassFires(s: State, e: Env, n: nat)
    requires n <= |s.slots|
    ensures SameDue(s, Pass(s, e, n)) && FlagAfter(s, Pass(s, e, n), e, n)
    ensures !FiresBelow(s, e, n) ==> Firings(Pass(s, e, n).log) == Firings(s.log)
    ensures forall i :: 0 <= i < n && FiresAt(s, e, i) ==>
      Firings(Pass(s, e, n).log) == Firings(s.log) + [Fired(s.slots[i].id, e.lock == PP_LOCK_OK)]
  {
    PassGetsTo(s, e, n);
    FiredIsOne(s, e, n);
  }

  /** Once one has fired, or was at its minute, no later one fires. */
  lemma OneFires(s: State, e: Env, i: nat)
    requires i < |s.slots|
    ensures FiresBelow(s, e, i + 1) <==> FiresBelow(s, e, i) || FiresAt(s, e, i)
    ensures !(FiresBelow(s, e, i) && FiresAt(s, e, i))
  {
  }

  /** The first slot at its minute, with a lower one due at another minute. */
  predicate MissedFirst(slots: seq<Slot>, e: Env, i: nat)
    requires i < |slots|
  {
    DueToday(slots[i], e) && TimeMatches(slots[i], e) && !MatchBelow(slots, e, i) && MissBelow(slots, e, i)
  }

  /** When a minute's booking fires a second time in its minute: after a pass that found a booking at
      its minute, a pass with the same calendar fires exactly when more than 3 s have gone by and a
      lower slot is due at another minute. */
  lemma FiresAgainIff(s: State, e: Env, f: Env)
    requires MatchBelow(s.slots, e, |s.slots|) && f.week == e.week && f.hour == e.hour && f.min == e.min
    ensures var t := Pass(s, e, |s.slots|);
      Firings(Pass(t, f, |t.slots|).log) != Firings(t.log) <==>
        Elapsed(f.now, e.now) > 3000 && exists i :: 0 <= i < |s.slots| && MissedFirst(s.slots, e, i)
    ensures var t := Pass(s, e, |s.slots|);
      forall i :: 0 <= i < |s.slots| && MissedFirst(s.slots, e, i) && Elapsed(f.now, e.now) > 3000 ==>
        Firings(Pass(t, f, |t.slots|).log) == Firings(t.log) + [Fired(s.slots[i].id, f.lock == PP_LOCK_OK)]
  {
    var n := |s.slots|;
    var t := Pass(s, e, n);
    PassFires(s, e, n);
    PassFires(t, f, n);
    forall i | 0 <= i < n
      ensures FiresAt(t, f, i) <==> Elapsed(f.now, e.now) > 3000 && MissedFirst(s.slots, e, i)
      ensures t.slots[i].id == s.slots[i].id
    {
      SameBelow(s, t, e, f, i);
      assert SameBooking(s.slots[i], t.slots[i]);
    }
  }

  lemma SameBelow(s: State, t: State, e: Env, f: Env, i: nat)
    requires SameDue(s, t) && i <= |s.slots| && f.week == e.week && f.hour == e.hour && f.min == e.min
    ensures MatchBelow(t.slots, f, i) <==> MatchBelow(s.slots, e, i)
    ensures MissBelow(t.slots, f, i) <==> MissBelow(s.slots, e, i)
  {
    assert forall j :: 0 <= j < |s.slots| ==> SameBooking(s.slots[j], t.slots[j]);
  }

  // ---- Passes in a row ----

  /** The passes of a run each find some booking at its minute, and each comes at most 3 s after the
      one before. */
  ghost predicate KeepsMatching(s: State, es: seq<Event>, last: nat)
    decreases |es|
  {
    es == [] ||
    if es[0].MonitorPass? then
      && MatchBelow(s.slots, es[0].env, |s.slots|) && Elapsed(es[0].env.now, last) <= 3000
      && KeepsMatching(Step(s, es[0]), es[1..], es[0].env.now)
    else KeepsMatching(Step(s, es[0]), es[1..], last)
  }

  lemma {:induction false} CancelsFireNothing(log: seq<Entry>, id: nat, n: nat)
    ensures Firings(log + Times(Cancelled(id), n)) == Firings(log)
  {
    if n == 0 {
      assert log + Times(Cancelled(id), 0) == log;
    } else {
      CancelsFireNothing(log, id, n - 1);
      TimesMore(log, Cancelled(id), n - 1);
      FiringsMore(log + Times(Cancelled(id), n - 1), Cancelled(id));
    }
  }

  lemma BookFiresNothing(s: State, id: nat, b: Booking)
    ensures Firings(BookStep(s, id, b).log) == Firings(s.log)
  {
    var log := BookStep(s, id, b).log;
    assert log == s.log || log == s.log + [Inserted(id)];
    FiringsMore(s.log, Inserted(id));
  }

  lemma CancelFiresNothing(s: State, slots': seq<Slot>, id: nat, hits: nat)
    ensures Firings(CancelStep(s, slots', id, hits).log) == Firings(s.log)
  {
    CancelsFireNothing(s.log, id, hits);
  }

  lemma OnlyPassesFire(s: State, ev: Event)
    requires !ev.MonitorPass?
    ensures Firings(Step(s, ev).log) == Firings(s.log)
    ensures Step(s, ev).performed == s.performed && Step(s, ev).delaytime == s.delaytime
  {
    match ev
    case Book(_, id, b) => BookFiresNothing(s, id, b);
    case TspCancel(_, id) => CancelFiresNothing(s, CancelAll(s.slots, id), id, Hits(s.slots, id));
    case ShellCancel(_, id) =>
      CancelFiresNothing(s, CancelFirst(s.slots, id), id, if IdTaken(s.slots, id) then 1 else 0);
    case Controller(_, _) =>
  }

  /** After one pass has found a booking at its minute, nothing fires in any such run, whatever is
      booked or cancelled in between. */
  lemma {:induction false} RowFiresNothing(s: State, es: seq<Event>)
    requires s.performed && KeepsMatching(s, es, s.delaytime)
    ensures Firings(Run(s, es).log) == Firings(s.log) && Run(s, es).performed
    decreases |es|
  {
    if es != [] {
      if es[0].MonitorPass? {
        PassFires(s, es[0].env, |s.slots|);
      } else {
        OnlyPassesFire(s, es[0]);
      }
      RowFiresNothing(Step(s, es[0]), es[1..]);
    }
  }

  function Passes(es: seq<Env>): (r: seq<Event>)
    ensures |r| == |es| && forall i :: 0 <= i < |es| ==> r[i] == MonitorPass(es[i])
  {
    seq(|es|, i requires 0 <= i < |es| => MonitorPass(es[i]))
  }

  /** Each comes at most 3 s after the one before. */
  ghost predicate InARow(es: seq<Env>, last: nat) {
    && (es != [] ==> Elapsed(es[0].now, last) <= 3000)
    && forall i, j :: 0 <= i < |es| && j == i + 1 && j < |es| ==> Elapsed(es[j].now, es[i].now) <= 3000
  }

  ghost predicate AllMatch(slots: seq<Slot>, es: seq<Env>) {
    forall i :: 0 <= i < |es| ==> MatchBelow(slots, es[i], |slots|)
  }

  lemma LaterInARow(es: seq<Env>, last: nat)
    requires es != [] && InARow(es, last)
    ensures Elapsed(es[0].now, last) <= 3000 && InARow(es[1..], es[0].now)
  {
    assert forall i :: 0 <= i < |es| - 1 ==> es[1..][i] == es[i + 1];
  }

  lemma LaterMatch(slots: seq<Slot>, es: seq<Env>)
    requires es != [] && AllMatch(slots, es)
    ensures AllMatch(slots, es[1..])
  {
    assert forall i :: 0 <= i < |es| - 1 ==> es[1..][i] == es[i + 1];
  }

  lemma PassKeepsDue(s: State, t: State, e: Env)
    requires SameDue(s, t) && MatchBelow(s.slots, e, |s.slots|)
    ensures MatchBelow(t.slots, e, |t.slots|) && SameDue(s, Step(t, MonitorPass(e)))
  {
    SameBelow(s, t, e, e, |s.slots|);
    PassIsSame(t, e);
    SameDueTwice(s, t, Step(t, MonitorPass(e)));
  }

  lemma PassIsSame(t: State, e: Env)
    ensures SameDue(t, Step(t, MonitorPass(e)))
  {
    PassFires(t, e, |t.slots|);
  }

  lemma MatchingFirst(t: State, e: Env, es: seq<Event>, last: nat)
    requires MatchBelow(t.slots, e, |t.slots|) && Elapsed(e.now, last) <= 3000
    requires KeepsMatching(Step(t, MonitorPass(e)), es, e.now)
    ensures KeepsMatching(t, [MonitorPass(e)] + es, last)
  {
    assert ([MonitorPass(e)] + es)[1..] == es;
  }

  /** Passes leave the repeating bookings as they are, so whether each finds one at its minute can be
      told beforehand. */
  lemma {:induction false} RowKeepsMatching(s: State, t: State, es: seq<Env>, last: nat)
    requires SameDue(s, t) && InARow(es, last) && AllMatch(s.slots, es)
    ensures KeepsMatching(t, Passes(es), last)
    decreases |es|
  {
    if es != [] {
      assert MatchBelow(s.slots, es[0], |s.slots|);
      PassKeepsDue(s, t, es[0]);
      LaterInARow(es, last);
      LaterMatch(s.slots, es);
      RowKeepsMatching(s, Step(t, MonitorPass(es[0])), es[1..], es[0].now);
      MatchingFirst(t, es[0], Passes(es[1..]), last);
      assert Passes(es) == [MonitorPass(es[0])] + Passes(es[1..]);
    }
  }

  /** So of passes in a row that each find some booking at its minute only the first fires, and a
      booking for the minute after another's never does. */
  lemma RowFiresOnce(s: State, e: Env, es: seq<Env>)
    requires MatchBelow(s.slots, e, |s.slots|) && InARow(es, e.now) && AllMatch(s.slots, es)
    ensures Firings(Run(s, [MonitorPass(e)] + Passes(es)).log) == Firings(Step(s, MonitorPass(e)).log)
  {
    var t := Step(s, MonitorPass(e));
    PassSets(s, e);
    RowKeepsMatching(s, t, es, e.now);
    RowFiresNothing(t, Passes(es));
    RunCons(s, MonitorPass(e), Passes(es));
  }

  lemma PassSets(s: State, e: Env)
    requires MatchBelow(s.slots, e, |s.slots|)
    ensures var t := Step(s, MonitorPass(e));
      SameDue(s, t) && t.performed && t.delaytime == e.now
  {
    PassFires(s, e, |s.slots|);
  }

  lemma RunCons(s: State, a: Event, es: seq<Event>)
    ensures Run(s, [a] + es) == Run(Step(s, a), es)
  {
    assert ([a] + es)[1..] == es;
  }

  // ---- Runs from an empty table ----

  const FreeSlot: Slot := Slot(0, 0, 0, 0, 0, 0, 0)

  const NoBookings: seq<Slot> := seq(ACC_APPOINT_NUM, _ => FreeSlot)

  lemma {:induction false} RunAppend(s: State, es: seq<Event>, fs: seq<Event>)
    ensures Run(s, es + fs) == Run(Run(s, es), fs)
    decreases |es|
  {
    if es == [] {
      assert es + fs == fs;
    } else {
      assert (es + fs)[0] == es[0] && (es + fs)[1..] == es[1..] + fs;
      RunAppend(Step(s, es[0]), es[1..], fs);
    }
  }

  lemma RunSnoc(s: State, es: seq<Event>, e: Event)
    ensures Run(s, es + [e]) == Step(Run(s, es), e)
  {
    RunAppend(s, es, [e]);
    assert [e][1..] == [];
  }

  /** Bookings with the ids 0, 1, 2 and so on. */
  function Bookings(k: nat, b: Booking): seq<Event> {
    if k == 0 then [] else Bookings(k - 1, b) + [Book(PP_LOCK_OK, k - 1, b)]
  }

  /** The first `k` slots hold them. */
  ghost predicate FilledTo(slots: seq<Slot>, k: nat, b: Booking) {
    && |slots| == ACC_APPOINT_NUM && k <= ACC_APPOINT_NUM
    && forall j :: 0 <= j < ACC_APPOINT_NUM ==> slots[j] == if j < k then Fill(FreeSlot, j, b) else FreeSlot
  }

  lemma NextIsFree(slots: seq<Slot>, k: nat, b: Booking)
    requires FilledTo(slots, k, b)
    ensures FirstFree(slots) == k && !IdTaken(slots, k)
  {
    assert forall j :: 0 <= j < k ==> slots[j].validFlg == 1;
    assert k < |slots| ==> slots[k].validFlg == 0;
  }

  lemma {:induction false} BookingsFill(k: nat, b: Booking)
    requires k <= ACC_APPOINT_NUM
    ensures FilledTo(Run(Loaded(NoBookings), Bookings(k, b)).slots, k, b)
  {
    if k > 0 {
      BookingsFill(k - 1, b);
      var s := Run(Loaded(NoBookings), Bookings(k - 1, b));
      NextIsFree(s.slots, k - 1, b);
      RunSnoc(Loaded(NoBookings), Bookings(k - 1, b), Book(PP_LOCK_OK, k - 1, b));
    }
  }

  /** A run: the eleventh booking is reported as finished and is not in the table. */
  lemma EleventhIsReportedFinished(b: Booking)
    ensures var s := Run(Loaded(NoBookings), Bookings(ACC_APPOINT_NUM + 1, b));
      && s.reports != [] && s.reports[|s.reports| - 1] == PP_RMTCTRL_EXECUTEDFINISH
      && !IdTaken(s.slots, ACC_APPOINT_NUM)
  {
    BookingsFill(ACC_APPOINT_NUM, b);
    var s := Run(Loaded(NoBookings), Bookings(ACC_APPOINT_NUM, b));
    NextIsFree(s.slots, ACC_APPOINT_NUM, b);
    RunSnoc(Loaded(NoBookings), Bookings(ACC_APPOINT_NUM, b), Book(PP_LOCK_OK, ACC_APPOINT_NUM, b));
  }

  /** Only the first slots of the table are in use. */
  ghost predicate UsedBelow(slots: seq<Slot>, k: nat) {
    forall j :: k <= j < |slots| ==> !Used(slots[j])
  }

  /** Slots that are not in use make no difference to the rest of a pass. */
  lemma {:induction false} RestIsQuiet(s: State, e: Env, n: nat)
    requires 1 <= n <= |s.slots| && UsedBelow(s.slots, 1)
    ensures var t, u := Pass(s, e, n), Pass(s, e, 1);
      && t.log == u.log && t.req == u.req && UsedBelow(t.slots, 1)
      && t.slots[0].(bookup := 0) == u.slots[0].(bookup := 0)
  {
    if n > 1 {
      RestIsQuiet(s, e, n - 1);
      QuietSlot(Pass(s, e, n - 1), e, n - 1);
    } else {
      assert Pass(s, e, 0) == s;
      SlotKeepsRest(s, e, 1, 0);
    }
  }

  lemma QuietSlot(s: State, e: Env, i: nat)
    requires 1 <= i < |s.slots| && UsedBelow(s.slots, 1)
    ensures var t := SaveSlot(CheckSlot(s, i, e), i, e);
      t.log == s.log && t.req == s.req && UsedBelow(t.slots, 1) && t.slots[0] == s.slots[0]
  {
    assert CheckSlot(s, i, e) == s;
  }

  lemma SlotKeepsRest(s: State, e: Env, k: nat, i: nat)
    requires i < k <= |s.slots| && UsedBelow(s.slots, k)
    ensures UsedBelow(SaveSlot(CheckSlot(s, i, e), i, e).slots, k)
  {
    CheckKeepsRest(s, e, k, i);
    SaveKeepsRest(CheckSlot(s, i, e), e, k, i);
  }

  lemma CheckKeepsRest(s: State, e: Env, k: nat, i: nat)
    requires i < k <= |s.slots| && UsedBelow(s.slots, k)
    ensures UsedBelow(CheckSlot(s, i, e).slots, k)
  {
  }

  lemma SaveKeepsRest(s: State, e: Env, k: nat, i: nat)
    requires i < k <= |s.slots| && UsedBelow(s.slots, k)
    ensures UsedBelow(SaveSlot(s, i, e).slots, k)
  {
  }

  /** A run: a one-shot booking comes due while the lock refuses, and is gone without having been
      asked for. */
  lemma OneShotIsLost(id: nat, b: Booking, e: Env)
    requires !Repeating(b.period) && e.hour == b.hour && e.min == b.min && e.lock != PP_LOCK_OK
    ensures var s := Run(Loaded(NoBookings), [Book(PP_LOCK_OK, id, b)] + [MonitorPass(e)]);
      && s.log == [Inserted(id), Expired(id, false)] && !s.req && UsedBelow(s.slots, 0)
  {
    var s0 := Loaded(NoBookings);
    assert FirstFree(NoBookings) == 0 && !IdTaken(NoBookings, id);
    var s1 := Step(s0, Book(PP_LOCK_OK, id, b));
    assert [] + [Inserted(id)] == [Inserted(id)];
    assert s1.slots[0] == Fill(FreeSlot, id, b) && UsedBelow(s1.slots, 1) && s1.log == [Inserted(id)];
    RunAppend(s0, [Book(PP_LOCK_OK, id, b)], [MonitorPass(e)]);
    assert [Book(PP_LOCK_OK, id, b)][1..] == [] && [MonitorPass(e)][1..] == [];
    var u := Pass(s1, e, 1);
    assert Pass(s1, e, 0) == s1;
    assert u.log == [Inserted(id)] + [Expired(id, false)] && !Used(u.slots[0]);
    RestIsQuiet(s1, e, ACC_APPOINT_NUM);
  }

  lemma RunOfTwo(s: State, a: Event, b: Event)
    ensures Run(s, [a, b]) == Step(Step(s, a), b)
  {
    assert [a, b][1..] == [b] && [b][1..] == [];
    assert Run(s, [a, b]) == Run(Step(s, a), [b]);
  }

  /** Booking 1 is `a` and booking 2 is `b`, and nothing has fired yet. */
  ghost predicate TwoSlots(s: State, a: Booking, b: Booking) {
    && |s.slots| == ACC_APPOINT_NUM && UsedBelow(s.slots, 2) && !s.performed && Firings(s.log) == []
    && s.slots[0] == Fill(FreeSlot, 1, a) && s.slots[1] == Fill(FreeSlot, 2, b)
  }

  /** A booking goes to slot `k` when the slots below are in use and the id is not. */
  lemma BookedInto(s: State, k: nat, id: nat, b: Booking)
    requires k < |s.slots| && s.slots[k] == FreeSlot && UsedBelow(s.slots, k)
    requires forall j :: 0 <= j < k ==> Used(s.slots[j]) && s.slots[j].id != id
    ensures var t := Step(s, Book(PP_LOCK_OK, id, b));
      && t.slots == s.slots[k := Fill(FreeSlot, id, b)] && UsedBelow(t.slots, k + 1)
      && t.performed == s.performed && t.req == s.req && Firings(t.log) == Firings(s.log)
  {
    assert FirstFree(s.slots) == k && !IdTaken(s.slots, id);
    FiringsMore(s.log, Inserted(id));
  }

  function BookTwo(a: Booking, b: Booking): seq<Event> {
    [Book(PP_LOCK_OK, 1, a), Book(PP_LOCK_OK, 2, b)]
  }

  lemma TwoBooked(a: Booking, b: Booking)
    ensures TwoSlots(Run(Loaded(NoBookings), BookTwo(a, b)), a, b)
  {
    RunOfTwo(Loaded(NoBookings), Book(PP_LOCK_OK, 1, a), Book(PP_LOCK_OK, 2, b));
    BookedInto(Loaded(NoBookings), 0, 1, a);
    BookedInto(Step(Loaded(NoBookings), Book(PP_LOCK_OK, 1, a)), 1, 2, b);
  }

  /** Every day, at this time. */
  function Daily(hour: nat, min: nat): Booking {
    Booking(hour, min, 0xff, 0)
  }

  /** A run: with one booking for nine o'clock and one for eight, two passes at eight, more than
      three seconds apart, fire the second one twice. */
  lemma FiresTwiceInItsMinute(e: Env, f: Env)
    requires e.hour == f.hour == 8 && e.min == f.min == 0 && e.week == f.week == 0
    requires Elapsed(f.now, e.now) > 3000
    ensures Firings(Run(Loaded(NoBookings), BookTwo(Daily(9, 0), Daily(8, 0)) + [MonitorPass(e), MonitorPass(f)]).log)
            == [Fired(2, e.lock == PP_LOCK_OK), Fired(2, f.lock == PP_LOCK_OK)]
  {
    var booked := BookTwo(Daily(9, 0), Daily(8, 0));
    RunAppend(Loaded(NoBookings), booked, [MonitorPass(e), MonitorPass(f)]);
    TwoBooked(Daily(9, 0), Daily(8, 0));
    TwiceAtEight(Run(Loaded(NoBookings), booked), e, f);
  }

  lemma TwiceAtEight(s: State, e: Env, f: Env)
    requires TwoSlots(s, Daily(9, 0), Daily(8, 0))
    requires e.hour == f.hour == 8 && e.min == f.min == 0 && e.week == f.week == 0
    requires Elapsed(f.now, e.now) > 3000
    ensures Firings(Run(s, [MonitorPass(e), MonitorPass(f)]).log)
            == [Fired(2, e.lock == PP_LOCK_OK), Fired(2, f.lock == PP_LOCK_OK)]
  {
    RunOfTwo(s, MonitorPass(e), MonitorPass(f));
    TwoDue(s, e);
    PassFires(s, e, |s.slots|);
    FiresAgainIff(s, e, f);
  }

  lemma TwoDue(s: State, e: Env)
    requires TwoSlots(s, Daily(9, 0), Daily(8, 0)) && e.hour == 8 && e.min == 0 && e.week == 0
    ensures MissedFirst(s.slots, e, 1) && s.slots[1].id == 2
    ensures MatchBelow(s.slots, e, |s.slots|) && FiresAt(s, e, 1)
  {
    assert DueToday(s.slots[0], e) && !TimeMatches(s.slots[0], e);
  }

  /** A run: with a booking for eight o'clock and one for a minute past, any number of passes in a
      row in those two minutes fire the first one only. */
  lemma NextMinuteIsLost(e: Env, es: seq<Env>)
    requires e.hour == 8 && e.min == 0 && e.week == 0 && InARow(es, e.now)
    requires forall i :: 0 <= i < |es| ==> es[i].hour == 8 && es[i].min <= 1 && es[i].week == 0
    ensures Firings(Run(Loaded(NoBookings), BookTwo(Daily(8, 0), Daily(8, 1)) + ([MonitorPass(e)] + Passes(es))).log)
            == [Fired(1, e.lock == PP_LOCK_OK)]
  {
    var booked := BookTwo(Daily(8, 0), Daily(8, 1));
    RunAppend(Loaded(NoBookings), booked, [MonitorPass(e)] + Passes(es));
    TwoBooked(Daily(8, 0), Daily(8, 1));
    FirstOfTwo(Run(Loaded(NoBookings), booked), e, es);
  }

  lemma FirstOfTwo(s: State, e: Env, es: seq<Env>)
    requires TwoSlots(s, Daily(8, 0), Daily(8, 1))
    requires e.hour == 8 && e.min == 0 && e.week == 0 && InARow(es, e.now)
    requires forall i :: 0 <= i < |es| ==> es[i].hour == 8 && es[i].min <= 1 && es[i].week == 0
    ensures Firings(Run(s, [MonitorPass(e)] + Passes(es)).log) == [Fired(1, e.lock == PP_LOCK_OK)]
  {
    EightFires(s, e);
    AllEightDue(s, es);
    RowFiresOnce(s, e, es);
  }

  lemma EightFires(s: State, e: Env)
    requires TwoSlots(s, Daily(8, 0), Daily(8, 1)) && e.hour == 8 && e.min == 0 && e.week == 0
    ensures MatchBelow(s.slots, e, |s.slots|)
    ensures Firings(Step(s, MonitorPass(e)).log) == [Fired(1, e.lock == PP_LOCK_OK)]
  {
    EightDue(s, e);
    PassFires(s, e, |s.slots|);
  }

  lemma AllEightDue(s: State, es: seq<Env>)
    requires TwoSlots(s, Daily(8, 0), Daily(8, 1))
    requires forall i :: 0 <= i < |es| ==> es[i].hour == 8 && es[i].min <= 1 && es[i].week == 0
    ensures AllMatch(s.slots, es)
  {
    forall i | 0 <= i < |es|
      ensures MatchBelow(s.slots, es[i], |s.slots|)
    {
      EightDue(s, es[i]);
    }
  }

  lemma EightDue(s: State, e: Env)
    requires TwoSlots(s, Daily(8, 0), Daily(8, 1)) && e.hour == 8 && e.min <= 1 && e.week == 0
    ensures MatchBelow(s.slots, e, |s.slots|)
    ensures e.min == 0 ==> FiresAt(s, e, 0) && s.slots[0].id == 1
  {
    assert DueToday(s.slots[e.min], e) && TimeMatches(s.slots[e.min], e);
  }

  /** A pass at the minute of a repeating booking. */
  predicate AtItsMinute(b: Booking, e: Env) {
    Repeating(b.period) && OnDay(b.period, e.week) && e.hour == b.hour && e.min == b.min
  }

  /** The only booking is `b`, under this id. */
  ghost predicate OneSlot(s: State, id: nat, b: Booking) {
    |s.slots| == ACC_APPOINT_NUM && UsedBelow(s.slots, 1) && s.slots[0].(bookup := 0) == Fill(FreeSlot, id, b)
  }

  lemma OneSlotPass(s: State, id: nat, b: Booking, e: Env)
    requires OneSlot(s, id, b) && AtItsMinute(b, e)
    ensures var t := Pass(s, e, ACC_APPOINT_NUM);
      && OneSlot(t, id, b) && t.performed && t.req == (s.req || (!s.performed && e.lock == PP_LOCK_OK))
      && Firings(t.log) == Firings(s.log) + if s.performed then [] else [Fired(id, e.lock == PP_LOCK_OK)]
  {
    assert Pass(s, e, 0) == s && Pass(s, e, 1) == SaveSlot(CheckSlot(s, 0, e), 0, e);
    RestIsQuiet(s, e, ACC_APPOINT_NUM);
    assert DueToday(s.slots[0], e) && TimeMatches(s.slots[0], e);
    assert FiresAt(s, e, 0) <==> !s.performed;
    assert FiresBelow(s, e, ACC_APPOINT_NUM) <==> FiresAt(s, e, 0);
    PassFires(s, e, ACC_APPOINT_NUM);
  }

  lemma {:induction false} OneSlotPasses(s: State, id: nat, b: Booking, es: seq<Env>)
    requires OneSlot(s, id, b) && s.performed && forall i :: 0 <= i < |es| ==> AtItsMinute(b, es[i])
    ensures var t := Run(s, Passes(es));
      t.req == s.req && Firings(t.log) == Firings(s.log)
    decreases |es|
  {
    if es != [] {
      OneSlotPass(s, id, b, es[0]);
      OneSlotPasses(Step(s, MonitorPass(es[0])), id, b, es[1..]);
      assert Passes(es)[1..] == Passes(es[1..]);
    }
  }

  /** From an empty table: a repeating booking alone in the table is carried out in its minute exactly
      when the lock lets it through on the first pass; refused then, it is not asked for again in that
      minute, whatever the lock answers on later passes. */
  lemma RepeatingCarriedOutIff(id: nat, b: Booking, e: Env, es: seq<Env>)
    requires AtItsMinute(b, e) && forall i :: 0 <= i < |es| ==> AtItsMinute(b, es[i])
    ensures var s := Run(Loaded(NoBookings), [Book(PP_LOCK_OK, id, b)] + ([MonitorPass(e)] + Passes(es)));
      (s.req <==> e.lock == PP_LOCK_OK) && Firings(s.log) == [Fired(id, e.lock == PP_LOCK_OK)]
  {
    var s0 := Loaded(NoBookings);
    BookedInto(s0, 0, id, b);
    var s1 := Step(s0, Book(PP_LOCK_OK, id, b));
    RunCons(s0, Book(PP_LOCK_OK, id, b), [MonitorPass(e)] + Passes(es));
    RunCons(s1, MonitorPass(e), Passes(es));
    OneSlotPass(s1, id, b, e);
    OneSlotPasses(Step(s1, MonitorPass(e)), id, b, es);
  }

  // ---- The C file's own form ----

  class AcController {
    var slots: array<Slot>
    var dataUpdata: bool
    var req: bool
    var idle: bool
    var performed: bool
    var delaytime: nat
    ghost var saved: seq<Slot>
    ghost var saveLost: bool
    ghost var log: seq<Entry>
    ghost var reports: seq<nat>

    ghost function View(): State
      reads this, slots
    {
      State(slots[..], dataUpdata, saved, saveLost, req, idle, performed, delaytime, log, reports)
    }

    /** `PP_ACCtrl_init` with a successful load. */
    constructor (stored: seq<Slot>)
      requires |stored| == ACC_APPOINT_NUM
      ensures fresh(slots) && slots.Length == ACC_APPOINT_NUM && View() == Loaded(stored)
    {
      slots := new Slot[ACC_APPOINT_NUM](i requires 0 <= i < |stored| => stored[i]);
      dataUpdata, req, idle, performed, delaytime := false, false, true, false, 0;
      saved, saveLost, log, reports := stored, false, [], [];
      new;
      assert slots[..] == stored;
    }

    method AppointInvalid() returns (index: int)
      requires slots.Length == ACC_APPOINT_NUM
      ensures index == if FirstFree(slots[..]) == ACC_APPOINT_NUM then -1 else FirstFree(slots[..])
    {
      for i := 0 to ACC_APPOINT_NUM
        invariant forall j :: 0 <= j < i ==> slots[j].validFlg != 0
      {
        if slots[i].validFlg == 0 {
          return i;
        }
      }
      return -1;
    }

    method IdInvalid(id: nat) returns (taken: bool)
      requires slots.Length == ACC_APPOINT_NUM
      ensures taken <==> IdTaken(slots[..], id)
    {
      for i := 0 to ACC_APPOINT_NUM
        invariant forall j :: 0 <= j < i ==> !(Used(slots[j]) && slots[j].id == id)
      {
        if slots[i].validFlg == 1 {
          if slots[i].id == id {
            assert Used(slots[..][i]) && slots[..][i].id == id;
            return true;
          }
        }
      }
      return false;
    }

    /** The booking branches of `SetPP_ACCtrl_Request`; the stored fields are bytes. */
    method Insert(id: nat, hour: nat, min: nat, period: bv8, eventId: nat)
      requires slots.Length == ACC_APPOINT_NUM
      modifies this`dataUpdata, this`log, this`reports, slots
      ensures View() == BookStep(old(View()), id, Booking(hour % 256, min % 256, period, eventId % 256))
    {
      var taken := IdInvalid(id);
      if taken {
        reports := reports + [PP_RMTCTRL_EXECUTEDFAIL];
      } else {
        ghost var was := slots[..];
        var index := AppointInvalid();
        if index != -1 {
          slots[index] := slots[index].(id := id, hour := hour % 256, min := min % 256, period := period,
                                        eventId := eventId % 256, validFlg := 1);
          log := log + [Inserted(id)];
          assert slots[..] == was[index := slots[index]];
        }
        dataUpdata := true;
        reports := reports + [PP_RMTCTRL_EXECUTEDFINISH];
      }
    }

    method BookFromTsp(lock: int, id: nat, hour: nat, min: nat, period: bv8, eventId: nat)
      requires slots.Length == ACC_APPOINT_NUM
      modifies this`dataUpdata, this`log, this`reports, slots
      ensures View() == Step(old(View()), Book(lock, id, Booking(hour % 256, min % 256, period, eventId % 256)))
    {
      if lock == PP_LOCK_OK {
        Insert(id, hour, min, period, eventId);
      }
    }

    /** The shell books every day, without an event. */
    method BookFromShell(lock: int, id: nat, hour: nat, min: nat)
      requires slots.Length == ACC_APPOINT_NUM
      modifies this`dataUpdata, this`log, this`reports, slots
      ensures View() == Step(old(View()), Book(lock, id, Booking(hour % 256, min % 256, 0xff, 0)))
    {
      if lock == PP_LOCK_OK {
        Insert(id, hour, min, 0xff, 0);
      }
    }

    /** A hit in either cancel loop. */
    method CancelSlot(i: nat, id: nat)
      requires i < slots.Length && slots[i].id == id
      modifies this`dataUpdata, this`log, this`reports, slots
      ensures slots[..] == old(slots[..])[i := Invalidate(old(slots[i]))]
      ensures forall j :: 0 <= j < slots.Length ==>
        slots[j] == if j == i then Invalidate(old(slots[j])) else old(slots[j])
      ensures dataUpdata && reports == old(reports) + [PP_RMTCTRL_EXECUTEDFINISH] && log == old(log) + [Cancelled(id)]
    {
      slots[i] := slots[i].(validFlg := 0);
      dataUpdata := true;
      reports := reports + [PP_RMTCTRL_EXECUTEDFINISH];
      log := log + [Cancelled(id)];
    }

    /** The TSP's cancel loop has no break, so it reports every slot with the id. */
    method CancelFromTsp(lock: int, id: nat)
      requires slots.Length == ACC_APPOINT_NUM
      modifies this`dataUpdata, this`log, this`reports, slots
      ensures View() == Step(old(View()), TspCancel(lock, id))
    {
      if lock == PP_LOCK_OK {
        ghost var was := View();
        ghost var hits := 0;
        for i := 0 to ACC_APPOINT_NUM
          invariant hits == Hits(was.slots[..i], id)
          invariant forall j :: 0 <= j < ACC_APPOINT_NUM ==>
            slots[j] == if j < i then CancelAll(was.slots, id)[j] else was.slots[j]
          invariant dataUpdata == (was.dataUpdata || hits > 0)
          invariant reports == was.reports + Times(PP_RMTCTRL_EXECUTEDFINISH, hits)
          invariant log == was.log + Times(Cancelled(id), hits)
        {
          HitsMore(was.slots, i, id);
          if slots[i].validFlg == 1 {
            if slots[i].id == id {
              TimesMore(was.reports, PP_RMTCTRL_EXECUTEDFINISH, hits);
              TimesMore(was.log, Cancelled(id), hits);
              CancelSlot(i, id);
              hits := hits + 1;
            }
          }
        }
        assert was.slots[..ACC_APPOINT_NUM] == was.slots && slots[..] == CancelAll(was.slots, id);
        if hits == 0 { NoHits(was.slots, id); }
      }
    }

    /** The shell's cancel loop breaks at the first hit. */
    method CancelFromShell(lock: int, id: nat)
      requires slots.Length == ACC_APPOINT_NUM
      modifies this`dataUpdata, this`log, this`reports, slots
      ensures View() == Step(old(View()), ShellCancel(lock, id))
    {
      if lock == PP_LOCK_OK {
        ghost var was := View();
        var i := 0;
        while i < ACC_APPOINT_NUM
          invariant 0 <= i <= ACC_APPOINT_NUM && View() == was
          invariant forall j :: 0 <= j < i ==> !(Used(was.slots[j]) && was.slots[j].id == id)
        {
          if slots[i].validFlg == 1 {
            if slots[i].id == id {
              CancelFirstAt(was.slots, id, i);
              CancelSlot(i, id);
              assert Used(was.slots[i]) && Times(Cancelled(id), 1) == [Cancelled(id)]
                && Times(PP_RMTCTRL_EXECUTEDFINISH, 1) == [PP_RMTCTRL_EXECUTEDFINISH];
              return;
            }
          }
          i := i + 1;
        }
        CancelFirstAt(was.slots, id, i);
      }
    }

    /** The body of the loop of `PP_AcCtrl_acStMonitor`. */
    method MonitorSlot(i: nat, e: Env)
      requires slots.Length == ACC_APPOINT_NUM && i < ACC_APPOINT_NUM
      modifies this`dataUpdata, this`req, this`performed, this`delaytime, this`saved, this`saveLost, this`log, slots
      ensures View() == SaveSlot(CheckSlot(old(View()), i, e), i, e)
    {
      BookingDue(i, e);
      SaveIfPending(i, e);
    }

    method BookingDue(i: nat, e: Env)
      requires slots.Length == ACC_APPOINT_NUM && i < ACC_APPOINT_NUM
      modifies this`dataUpdata, this`req, this`performed, this`delaytime, this`log, slots
      ensures View() == CheckSlot(old(View()), i, e)
    {
      if slots[i].validFlg == 1 {
        if Repeating(slots[i].period) {
          if OnDay(slots[i].period, e.week) {
            if e.hour == slots[i].hour && e.min == slots[i].min {
              if !performed {
                performed := true;
                log := log + [Fired(slots[i].id, e.lock == PP_LOCK_OK)];
                if e.lock == PP_LOCK_OK {
                  req := true;
                }
              }
              delaytime := e.now;
            } else {
              if Elapsed(e.now, delaytime) > 3000 {
                performed := false;
              }
            }
          }
        } else {
          if e.hour == slots[i].hour && e.min == slots[i].min {
            if e.lock == PP_LOCK_OK {
              req := true;
            }
            dataUpdata := true;
            ghost var was := slots[..];
            log := log + [Expired(slots[i].id, e.lock == PP_LOCK_OK)];
            slots[i] := slots[i].(validFlg := 0);
            assert slots[..] == was[i := Invalidate(was[i])];
          }
        }
      }
    }

    method SaveIfPending(i: nat, e: Env)
      requires slots.Length == ACC_APPOINT_NUM && i < ACC_APPOINT_NUM
      modifies this`dataUpdata, this`saved, this`saveLost, slots
      ensures View() == SaveSlot(old(View()), i, e)
    {
      var sleepflag := !req && idle;
      if e.powerOff || sleepflag {
        if dataUpdata {
          ghost var was := slots[..];
          if slots[i].bookup == 1 {
            slots[i] := slots[i].(bookup := 2);
          }
          assert slots[..] == Mark(was, i);
          if i !in e.failing {
            saved := slots[..];
            saveLost := false;
          } else {
            saveLost := true;
          }
          dataUpdata := false;
        }
      }
    }

    method Monitor(e: Env)
      requires slots.Length == ACC_APPOINT_NUM
      modifies this`dataUpdata, this`req, this`performed, this`delaytime, this`saved, this`saveLost, this`log, slots
      ensures View() == Step(old(View()), MonitorPass(e))
    {
      for i := 0 to ACC_APPOINT_NUM
        invariant View() == Pass(old(View()), e, i)
      {
        MonitorSlot(i, e);
      }
    }
  }
}
