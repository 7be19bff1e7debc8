/**
 * The background reminder component (src/components/MedicineReminder.tsx).
 *
 * It keeps three sets of medicine ids: `checked` (a due reminder was shown),
 * `missed` (a missed reminder was shown) and `taken` (the user pressed "Take Now").
 * A periodic tick raises "missed" and "due" notifications, a mount check raises
 * "Medicine Due" notifications for doses scheduled in the last ten minutes, and the
 * "Take Now" action of a notification marks a medicine taken. A new medicines list
 * empties all three sets.
 *
 * The pure functions over `Sets` say what each step does; the class `Reminder`
 * holds the sets in place and its methods are proved against those functions.
 */
module MedicineReminder {
  import opened Common
  import opened Clock

  /** A scheduled medicine as the reminder sees it. */
  datatype Medicine = Medicine(id: string, name: string, time: string)

  /** The notifications the component raises, reduced to their kind and medicine id. */
  datatype Kind =
    | Missed    // "Missed Medicine Reminder"
    | Due       // "Medicine Reminder": time to take it
    | MountDue  // "Medicine Due", from the check on mount
    | Taken     // "Medicine Taken" confirmation

  datatype Event = Event(kind: Kind, id: string)

  /** The component's three id-sets. */
  datatype Sets = Sets(checked: set<string>, missed: set<string>, taken: set<string>)

  const NoSets := Sets({}, {}, {})

  /** Every medicine's time can be split into hours and minutes. */
  predicate Schedulable(meds: seq<Medicine>) {
    forall i :: 0 <= i < |meds| ==> IsTime(meds[i].time)
  }

  /** The host passes medicines with distinct ids. */
  predicate UniqueIds(meds: seq<Medicine>) {
    forall i, j :: 0 <= i < j < |meds| ==> meds[i].id != meds[j].id
  }

  // ---------------------------------------------------------------------------
  // The periodic tick
  // ---------------------------------------------------------------------------

  /** The tick's missed branch for one medicine, judged on the sets as they stood before the tick. */
  predicate MissedFires(m: Medicine, nowSec: SecondOfDay, s: Sets)
    requires IsTime(m.time)
  {
    && m.id !in s.taken
    && ScheduledSec(m.time) < nowSec
    && m.id !in s.checked
    && m.id !in s.missed
  }

  /** The tick's due branch: the time string equals now's `HH:MM` label; `checked` is not consulted. */
  predicate DueFires(m: Medicine, nowSec: SecondOfDay, s: Sets) {
    m.id !in s.taken && m.time == FormatHHMM(nowSec)
  }

  /** What one medicine contributes to a tick: the missed notification first, then the due one. */
  function TickOne(m: Medicine, nowSec: SecondOfDay, s: Sets): seq<Event>
    requires IsTime(m.time)
  {
    (if MissedFires(m, nowSec, s) then [Event(Missed, m.id)] else [])
    + (if DueFires(m, nowSec, s) then [Event(Due, m.id)] else [])
  }

  /** The notifications of one tick over `meds`, in list order. */
  function TickEvents(meds: seq<Medicine>, nowSec: SecondOfDay, s: Sets): seq<Event>
    requires Schedulable(meds)
    decreases |meds|
  {
    if meds == [] then []
    else TickEvents(meds[..|meds| - 1], nowSec, s) + TickOne(meds[|meds| - 1], nowSec, s)
  }

  /** The ids that carry a notification of kind `k`. */
  function IdsOf(events: seq<Event>, k: Kind): set<string> {
    set e | e in events && e.kind == k :: e.id
  }

  lemma IdsOfAppend(a: seq<Event>, b: seq<Event>, k: Kind)
    ensures IdsOf(a + b, k) == IdsOf(a, k) + IdsOf(b, k)
  {
    assert forall e :: e in a + b <==> e in a || e in b;
  }

  lemma IdsOfTickOne(m: Medicine, nowSec: SecondOfDay, s: Sets)
    requires IsTime(m.time)
    ensures IdsOf(TickOne(m, nowSec, s), Missed) == if MissedFires(m, nowSec, s) then {m.id} else {}
    ensures IdsOf(TickOne(m, nowSec, s), Due) == if DueFires(m, nowSec, s) then {m.id} else {}
  {
    var one := TickOne(m, nowSec, s);
    assert forall e :: e in one ==> e.id == m.id;
    if MissedFires(m, nowSec, s) {
      assert Event(Missed, m.id) in one;
    }
    if DueFires(m, nowSec, s) {
      assert Event(Due, m.id) in one;
    }
  }

  /** The sets after a tick: each missed notification adds its id to `missed`, each due one to `checked`. */
  function TickState(meds: seq<Medicine>, nowSec: SecondOfDay, s: Sets): Sets
    requires Schedulable(meds)
  {
    var events := TickEvents(meds, nowSec, s);
    Sets(s.checked + IdsOf(events, Due), s.missed + IdsOf(events, Missed), s.taken)
  }

  // ---------------------------------------------------------------------------
  // The check on mount
  // ---------------------------------------------------------------------------

  /** The mount check: whole minutes since the scheduled instant lie in 0..10, and the id is neither taken nor checked. */
  predicate MountFires(m: Medicine, nowSec: SecondOfDay, s: Sets)
    requires IsTime(m.time)
  {
    var diffMinutes := (nowSec - ScheduledSec(m.time)) / 60;
    m.id !in s.taken && 0 <= diffMinutes <= 10 && m.id !in s.checked
  }

  function MountOne(m: Medicine, nowSec: SecondOfDay, s: Sets): seq<Event>
    requires IsTime(m.time)
  {
    if MountFires(m, nowSec, s) then [Event(MountDue, m.id)] else []
  }

  function MountEvents(meds: seq<Medicine>, nowSec: SecondOfDay, s: Sets): seq<Event>
    requires Schedulable(meds)
    decreases |meds|
  {
    if meds == [] then []
    else MountEvents(meds[..|meds| - 1], nowSec, s) + MountOne(meds[|meds| - 1], nowSec, s)
  }

  // ---------------------------------------------------------------------------
  // "Take Now"
  // ---------------------------------------------------------------------------

  /**
   * The sets after "Take Now" on a notification. Nothing happens without an
   * `onMedicineTaken` callback; otherwise the id is added to `taken`, and the
   * missed notification's action also removes it from `missed`.
   */
  function AfterTake(s: Sets, id: string, fromMissed: bool, hasCallback: bool): Sets {
    if !hasCallback then s
    else if fromMissed then Sets(s.checked, s.missed - {id}, s.taken + {id})
    else Sets(s.checked, s.missed, s.taken + {id})
  }

  /** The confirmation raised by "Take Now". */
  function TakeEvents(id: string, hasCallback: bool): seq<Event> {
    if hasCallback then [Event(Taken, id)] else []
  }

  // ---------------------------------------------------------------------------
  // The component's state, updated in place
  // ---------------------------------------------------------------------------

  class Reminder {
    var checked: set<string>
    var missed: set<string>
    var taken: set<string>

    function State(): Sets
      reads this
    {
      Sets(checked, missed, taken)
    }

    /** The three `useState(new Set())` hooks. */
    constructor ()
      ensures State() == NoSets
    {
      checked, missed, taken := {}, {}, {};
    }

    /** The effect run whenever the medicines list changes. */
    method Reset()
      modifies this
      ensures State() == NoSets
    {
      checked := {};
      missed := {};
      taken := {};
    }

    /** The interval callback, run at second `nowSec` of the day. */
    method Tick(meds: seq<Medicine>, nowSec: SecondOfDay) returns (events: seq<Event>)
      requires Schedulable(meds)
      modifies this
      ensures events == TickEvents(meds, nowSec, old(State()))
      ensures State() == TickState(meds, nowSec, old(State()))
    {
      events := [];
      if |meds| == 0 {
        return;
      }
      var currentTime := FormatHHMM(nowSec);
      // The callback reads the sets its closure captured; the setters below only
      // take effect after it returns.
      var pre := State();
      var i := 0;
      while i < |meds|
        invariant 0 <= i <= |meds|
        invariant events == TickEvents(meds[..i], nowSec, pre)
        invariant checked == pre.checked + IdsOf(events, Due)
        invariant missed == pre.missed + IdsOf(events, Missed)
        invariant taken == pre.taken
      {
        var step := TickMedicine(meds[i], nowSec, currentTime, pre);
        assert meds[..i + 1][..i] == meds[..i];
        IdsOfAppend(events, step, Due);
        IdsOfAppend(events, step, Missed);
        events := events + step;
        i := i + 1;
      }
      assert meds[..i] == meds;
    }

    /** The body of the tick's `forEach` for one medicine, judged on the captured sets `pre`. */
    method TickMedicine(m: Medicine, nowSec: SecondOfDay, currentTime: string, pre: Sets) returns (step: seq<Event>)
      requires IsTime(m.time) && currentTime == FormatHHMM(nowSec)
      modifies this
      ensures step == TickOne(m, nowSec, pre)
      ensures checked == old(checked) + IdsOf(step, Due)
      ensures missed == old(missed) + IdsOf(step, Missed)
      ensures taken == old(taken)
    {
      step := [];
      if m.id in pre.taken {
        return;
      }
      if ScheduledSec(m.time) < nowSec && m.id !in pre.checked && m.id !in pre.taken {
        if m.id !in pre.missed {
          missed := missed + {m.id};
          step := step + [Event(Missed, m.id)];
        }
      }
      if m.time == currentTime && m.id !in pre.taken {
        checked := checked + {m.id};
        step := step + [Event(Due, m.id)];
      }
      IdsOfTickOne(m, nowSec, pre);
    }

    /** The check run on mount and whenever the effect re-runs; it changes no set. */
    method MountCheck(meds: seq<Medicine>, nowSec: SecondOfDay) returns (events: seq<Event>)
      requires Schedulable(meds)
      ensures events == MountEvents(meds, nowSec, State())
    {
      events := [];
      if |meds| == 0 {
        return;
      }
      var i := 0;
      while i < |meds|
        invariant 0 <= i <= |meds|
        invariant events == MountEvents(meds[..i], nowSec, State())
      {
        var m := meds[i];
        assert meds[..i + 1][..i] == meds[..i];
        if m.id !in taken {
          var diffMinutes := (nowSec - ScheduledSec(m.time)) / 60;
          if diffMinutes >= 0 && diffMinutes <= 10 && m.id !in checked {
            events := events + [Event(MountDue, m.id)];
          }
        }
        i := i + 1;
      }
      assert meds[..i] == meds;
    }

    /** "Take Now" on a missed notification; `called` is the medicine handed to `onMedicineTaken`. */
    method TakeFromMissed(m: Medicine, hasCallback: bool) returns (called: Option<Medicine>, events: seq<Event>)
      modifies this
      ensures State() == AfterTake(old(State()), m.id, true, hasCallback)
      ensures called == (if hasCallback then Some(m) else None)
      ensures events == TakeEvents(m.id, hasCallback)
    {
      called, events := None, [];
      if hasCallback {
        called := Some(m);
        taken := taken + {m.id};
        missed := missed - {m.id};
        events := [Event(Taken, m.id)];
      }
    }

    /** "Take Now" on a due notification (the mount check's notification has the same action). */
    method TakeFromDue(m: Medicine, hasCallback: bool) returns (called: Option<Medicine>, events: seq<Event>)
      modifies this
      ensures State() == AfterTake(old(State()), m.id, false, hasCallback)
      ensures called == (if hasCallback then Some(m) else None)
      ensures events == TakeEvents(m.id, hasCallback)
    {
      called, events := None, [];
      if hasCallback {
        called := Some(m);
        taken := taken + {m.id};
        events := [Event(Taken, m.id)];
      }
    }
  }

  // ---------------------------------------------------------------------------
  // Properties of one tick and one mount check
  // ---------------------------------------------------------------------------

  /** A tick's notification comes from exactly one medicine's step. */
  lemma {:induction false} InTickEvents(meds: seq<Medicine>, nowSec: SecondOfDay, s: Sets, e: Event)
    requires Schedulable(meds)
    ensures e in TickEvents(meds, nowSec, s) <==> exists i :: 0 <= i < |meds| && e in TickOne(meds[i], nowSec, s)
    decreases |meds|
  {
    if meds != [] {
      var init, last := meds[..|meds| - 1], meds[|meds| - 1];
      InTickEvents(init, nowSec, s, e);
      assert TickEvents(meds, nowSec, s) == TickEvents(init, nowSec, s) + TickOne(last, nowSec, s);
      if e in TickEvents(meds, nowSec, s) {
        if e in TickOne(last, nowSec, s) {
          assert 0 <= |meds| - 1 < |meds| && e in TickOne(meds[|meds| - 1], nowSec, s);
        } else {
          var i :| 0 <= i < |init| && e in TickOne(init[i], nowSec, s);
          assert init[i] == meds[i];
        }
      }
      if exists i :: 0 <= i < |meds| && e in TickOne(meds[i], nowSec, s) {
        var i :| 0 <= i < |meds| && e in TickOne(meds[i], nowSec, s);
        if i < |init| {
          assert init[i] == meds[i];
        }
      }
    }
  }

  /** A mount check's notification comes from exactly one medicine. */
  lemma {:induction false} InMountEvents(meds: seq<Medicine>, nowSec: SecondOfDay, s: Sets, e: Event)
    requires Schedulable(meds)
    ensures e in MountEvents(meds, nowSec, s) <==> exists i :: 0 <= i < |meds| && e in MountOne(meds[i], nowSec, s)
    decreases |meds|
  {
    if meds != [] {
      var init, last := meds[..|meds| - 1], meds[|meds| - 1];
      InMountEvents(init, nowSec, s, e);
      assert MountEvents(meds, nowSec, s) == MountEvents(init, nowSec, s) + MountOne(last, nowSec, s);
      if e in MountEvents(meds, nowSec, s) {
        if e in MountOne(last, nowSec, s) {
          assert 0 <= |meds| - 1 < |meds| && e in MountOne(meds[|meds| - 1], nowSec, s);
        } else {
          var i :| 0 <= i < |init| && e in MountOne(init[i], nowSec, s);
          assert init[i] == meds[i];
        }
      }
      if exists i :: 0 <= i < |meds| && e in MountOne(meds[i], nowSec, s) {
        var i :| 0 <= i < |meds| && e in MountOne(meds[i], nowSec, s);
        if i < |init| {
          assert init[i] == meds[i];
        }
      }
    }
  }

  /**
   * A missed notification is raised for `id`, and `id` then joins `missed`, exactly when
   * some medicine with that id was scheduled before now today and, before the tick, was in
   * none of `checked`, `taken` and `missed`.
   */
  lemma MissedNotifiedIff(meds: seq<Medicine>, nowSec: SecondOfDay, s: Sets, id: string)
    requires Schedulable(meds)
    ensures Event(Missed, id) in TickEvents(meds, nowSec, s) <==>
            exists i :: 0 <= i < |meds| && meds[i].id == id && MissedFires(meds[i], nowSec, s)
    ensures id in TickState(meds, nowSec, s).missed <==>
            id in s.missed || Event(Missed, id) in TickEvents(meds, nowSec, s)
  {
    InTickEvents(meds, nowSec, s, Event(Missed, id));
  }

  /**
   * The due test: the time string equals now's label exactly when it is zero-padded and
   * now lies within its minute. A time such as "8:00" is therefore never due.
   */
  lemma DueFiresIff(m: Medicine, nowSec: SecondOfDay, s: Sets)
    requires IsTime(m.time)
    ensures DueFires(m, nowSec, s) <==>
            m.id !in s.taken && |m.time| == 5 && nowSec / 60 * 60 == ScheduledSec(m.time)
  {
    LabelMatchIff(m.time, nowSec);
  }

  /**
   * A due notification is raised for `id`, and `id` then joins `checked`, exactly when some
   * medicine with that id is not taken and its time string is now's `HH:MM` label.
   */
  lemma DueNotifiedIff(meds: seq<Medicine>, nowSec: SecondOfDay, s: Sets, id: string)
    requires Schedulable(meds)
    ensures Event(Due, id) in TickEvents(meds, nowSec, s) <==>
            exists i :: 0 <= i < |meds| && meds[i].id == id && DueFires(meds[i], nowSec, s)
    ensures id in TickState(meds, nowSec, s).checked <==>
            id in s.checked || Event(Due, id) in TickEvents(meds, nowSec, s)
  {
    InTickEvents(meds, nowSec, s, Event(Due, id));
  }

  /** `checked` does not guard the due branch: a second tick in the same minute repeats the due notification. */
  lemma DueRepeatsWithinMinute(meds: seq<Medicine>, nowSec: SecondOfDay, s: Sets, id: string)
    requires Schedulable(meds)
    requires Event(Due, id) in TickEvents(meds, nowSec, s)
    ensures Event(Due, id) in TickEvents(meds, nowSec, TickState(meds, nowSec, s))
  {
    var s' := TickState(meds, nowSec, s);
    DueNotifiedIff(meds, nowSec, s, id);
    var i :| 0 <= i < |meds| && meds[i].id == id && DueFires(meds[i], nowSec, s);
    assert DueFires(meds[i], nowSec, s');
    DueNotifiedIff(meds, nowSec, s', id);
  }

  /**
   * Both branches read the sets from before the tick: a fresh medicine whose padded time is
   * the current minute, ticked after second zero of that minute, gets both notifications.
   */
  lemma MissedAndDueInOneTick(meds: seq<Medicine>, nowSec: SecondOfDay, s: Sets, k: nat)
    requires Schedulable(meds) && k < |meds|
    requires |meds[k].time| == 5 && ScheduledSec(meds[k].time) == nowSec / 60 * 60
    requires nowSec % 60 > 0
    requires meds[k].id !in s.checked && meds[k].id !in s.missed && meds[k].id !in s.taken
    ensures Event(Missed, meds[k].id) in TickEvents(meds, nowSec, s)
    ensures Event(Due, meds[k].id) in TickEvents(meds, nowSec, s)
  {
    var m := meds[k];
    DueFiresIff(m, nowSec, s);
    assert MissedFires(m, nowSec, s) && DueFires(m, nowSec, s);
    InTickEvents(meds, nowSec, s, Event(Missed, m.id));
    InTickEvents(meds, nowSec, s, Event(Due, m.id));
    assert Event(Missed, m.id) in TickOne(meds[k], nowSec, s);
    assert Event(Due, m.id) in TickOne(meds[k], nowSec, s);
  }

  /** The mount check's window: from the scheduled instant up to, not including, eleven minutes after it. */
  lemma MountFiresIff(m: Medicine, nowSec: SecondOfDay, s: Sets)
    requires IsTime(m.time)
    ensures MountFires(m, nowSec, s) <==>
            m.id !in s.taken && m.id !in s.checked &&
            ScheduledSec(m.time) <= nowSec < ScheduledSec(m.time) + 660
  {
  }

  /** A tick over an empty list raises nothing and leaves the sets as they were. */
  lemma EmptyTickIsQuiet(nowSec: SecondOfDay, s: Sets)
    ensures TickEvents([], nowSec, s) == [] && TickState([], nowSec, s) == s
  {
    assert IdsOf([], Due) == {} && IdsOf([], Missed) == {};
  }

  /** A taken medicine gets no notification from a tick or a mount check, and a tick keeps `taken`. */
  lemma TakenIsSilent(meds: seq<Medicine>, nowSec: SecondOfDay, s: Sets, id: string)
    requires Schedulable(meds)
    requires id in s.taken
    ensures forall e :: e in TickEvents(meds, nowSec, s) ==> e.id != id
    ensures forall e :: e in MountEvents(meds, nowSec, s) ==> e.id != id
    ensures TickState(meds, nowSec, s).taken == s.taken
  {
    forall e | e in TickEvents(meds, nowSec, s)
      ensures e.id != id
    {
      InTickEvents(meds, nowSec, s, e);
    }
    forall e | e in MountEvents(meds, nowSec, s)
      ensures e.id != id
    {
      InMountEvents(meds, nowSec, s, e);
    }
  }

  /** One medicine's step raises at most one missed notification, and only for its own id. */
  lemma MissedCountOne(m: Medicine, nowSec: SecondOfDay, s: Sets, id: string)
    requires IsTime(m.time)
    ensures multiset(TickOne(m, nowSec, s))[Event(Missed, id)] == if m.id == id && MissedFires(m, nowSec, s) then 1 else 0
  {
  }

  /** With distinct ids, one tick raises at most one missed notification per id. */
  lemma {:induction false} MissedOncePerTick(meds: seq<Medicine>, nowSec: SecondOfDay, s: Sets, id: string)
    requires Schedulable(meds) && UniqueIds(meds)
    ensures multiset(TickEvents(meds, nowSec, s))[Event(Missed, id)] <= 1
    decreases |meds|
  {
    if meds != [] {
      var init, last := meds[..|meds| - 1], meds[|meds| - 1];
      var before, one := TickEvents(init, nowSec, s), TickOne(last, nowSec, s);
      var e := Event(Missed, id);
      assert TickEvents(meds, nowSec, s) == before + one;
      assert multiset(before + one)[e] == multiset(before)[e] + multiset(one)[e];
      MissedCountOne(last, nowSec, s, id);
      if last.id == id {
        if e in before {
          InTickEvents(init, nowSec, s, e);
          var i :| 0 <= i < |init| && e in TickOne(init[i], nowSec, s);
          MissedCountOne(init[i], nowSec, s, id);
          assert false;
        }
      } else {
        MissedOncePerTick(init, nowSec, s, id);
      }
    }
  }

  // ---------------------------------------------------------------------------
  // Runs between two resets
  // ---------------------------------------------------------------------------

  /** What can happen to the component while its medicines list stays the same. */
  datatype Action =
    | TickAt(nowSec: SecondOfDay)
    | MountAt(nowSec: SecondOfDay)
    | TakeNowOnMissed(med: Medicine, hasCallback: bool)
    | TakeNowOnDue(med: Medicine, hasCallback: bool)

  /** One action's new sets and notifications, as the class's methods perform it. */
  function Step(meds: seq<Medicine>, s: Sets, a: Action): (Sets, seq<Event>)
    requires Schedulable(meds)
  {
    match a
    case TickAt(nowSec) => (TickState(meds, nowSec, s), TickEvents(meds, nowSec, s))
    case MountAt(nowSec) => (s, MountEvents(meds, nowSec, s))
    case TakeNowOnMissed(m, hasCallback) => (AfterTake(s, m.id, true, hasCallback), TakeEvents(m.id, hasCallback))
    case TakeNowOnDue(m, hasCallback) => (AfterTake(s, m.id, false, hasCallback), TakeEvents(m.id, hasCallback))
  }

  /** The sets after a sequence of actions, and every notification raised on the way. */
  function Run(meds: seq<Medicine>, s: Sets, acts: seq<Action>): (Sets, seq<Event>)
    requires Schedulable(meds)
    decreases |acts|
  {
    if acts == [] then (s, [])
    else
      var first := Step(meds, s, acts[0]);
      var rest := Run(meds, first.0, acts[1..]);
      (rest.0, first.1 + rest.1)
  }

  /** An id in `missed` or `taken` can get no further missed notification. */
  predicate Guarded(s: Sets, id: string) {
    id in s.missed || id in s.taken
  }

  /** Every action keeps an id guarded, and raises no missed notification for a guarded id. */
  lemma StepKeepsGuard(meds: seq<Medicine>, s: Sets, a: Action, id: string)
    requires Schedulable(meds) && Guarded(s, id)
    ensures Guarded(Step(meds, s, a).0, id)
    ensures Event(Missed, id) !in Step(meds, s, a).1
  {
    if a.TickAt? {
      MissedNotifiedIff(meds, a.nowSec, s, id);
    } else if a.MountAt? {
      InMountEvents(meds, a.nowSec, s, Event(Missed, id));
    }
  }

  /** With distinct ids an action raises at most one missed notification for an id, and then guards it. */
  lemma StepGuardsMissed(meds: seq<Medicine>, s: Sets, a: Action, id: string)
    requires Schedulable(meds) && UniqueIds(meds)
    ensures multiset(Step(meds, s, a).1)[Event(Missed, id)] <= 1
    ensures Event(Missed, id) in Step(meds, s, a).1 ==> Guarded(Step(meds, s, a).0, id)
  {
    match a
    case TickAt(nowSec) =>
      MissedOncePerTick(meds, nowSec, s, id);
      MissedNotifiedIff(meds, nowSec, s, id);
    case MountAt(nowSec) =>
      InMountEvents(meds, nowSec, s, Event(Missed, id));
    case TakeNowOnMissed(_, _) =>
    case TakeNowOnDue(_, _) =>
  }

  /**
   * Between two resets, with distinct ids, each id gets at most one missed notification,
   * and none once it is in `missed` or `taken`: nothing re-notifies on a cadence.
   */
  lemma {:induction false} MissedAtMostOnce(meds: seq<Medicine>, s: Sets, acts: seq<Action>, id: string)
    requires Schedulable(meds) && UniqueIds(meds)
    ensures multiset(Run(meds, s, acts).1)[Event(Missed, id)] <= if Guarded(s, id) then 0 else 1
    decreases |acts|
  {
    if acts != [] {
      var e := Event(Missed, id);
      var first := Step(meds, s, acts[0]);
      var rest := Run(meds, first.0, acts[1..]);
      assert multiset(first.1 + rest.1)[e] == multiset(first.1)[e] + multiset(rest.1)[e];
      MissedAtMostOnce(meds, first.0, acts[1..], id);
      StepGuardsMissed(meds, s, acts[0], id);
      if Guarded(s, id) {
        StepKeepsGuard(meds, s, acts[0], id);
      }
    }
  }

  /** Once an id is taken it stays taken, and the only notifications it still gets are confirmations. */
  lemma {:induction false} TakenStaysSilent(meds: seq<Medicine>, s: Sets, acts: seq<Action>, id: string)
    requires Schedulable(meds) && id in s.taken
    ensures id in Run(meds, s, acts).0.taken
    ensures forall e :: e in Run(meds, s, acts).1 && e.id == id ==> e.kind == Taken
    decreases |acts|
  {
    if acts != [] {
      var first := Step(meds, s, acts[0]);
      match acts[0] {
        case TickAt(nowSec) => TakenIsSilent(meds, nowSec, s, id);
        case MountAt(nowSec) => TakenIsSilent(meds, nowSec, s, id);
        case TakeNowOnMissed(_, _) =>
        case TakeNowOnDue(_, _) =>
      }
      TakenStaysSilent(meds, first.0, acts[1..], id);
    }
  }
}
