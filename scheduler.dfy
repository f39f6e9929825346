/** One pass of the body of `reminder_loop` (ai_friend.py:45-52): read the
    clock as `"HH:MM"`, load the reminders, pick the tasks whose time string
    equals it, and raise one toast when there are any. The endless loop, the
    daemon thread and the 60-second sleep are not part of this model; the
    clock reading is a parameter. */
module Scheduler {

  import opened Wrappers
  import opened Clock
  import opened Text
  import opened ReminderStore

  /** `[r["task"] for r in reminders if r["time"] == now]`, written from the
      back so that appending a reminder appends to the result. */
  function DueTasks(reminders: seq<Reminder>, now: string): seq<string>
  {
    if reminders == [] then []
    else
      var last := reminders[|reminders| - 1];
      DueTasks(reminders[..|reminders| - 1], now) + (if last.time == now then [last.task] else [])
  }

  /** Positions of the reminders whose time equals `now`, in store order. */
  ghost function DueIndices(reminders: seq<Reminder>, now: string): seq<nat>
  {
    if reminders == [] then []
    else
      var n := |reminders| - 1;
      DueIndices(reminders[..n], now) + (if reminders[n].time == now then [n] else [])
  }

  /** The due list is the tasks of exactly the reminders whose time equals
      `now`: one entry per matching reminder (duplicates kept), in store order. */
  lemma {:induction false} DueTasksSelectsMatches(reminders: seq<Reminder>, now: string)
    ensures var due, idx := DueTasks(reminders, now), DueIndices(reminders, now);
            |due| == |idx| &&
            (forall k :: 0 <= k < |idx| ==>
               idx[k] < |reminders| && reminders[idx[k]].time == now && due[k] == reminders[idx[k]].task) &&
            (forall j, k :: 0 <= j < k < |idx| ==> idx[j] < idx[k]) &&
            (forall i :: 0 <= i < |reminders| && reminders[i].time == now ==> i in idx)
  {
    if reminders != [] {
      var n := |reminders| - 1;
      var init := reminders[..n];
      DueTasksSelectsMatches(init, now);
      var idx0 := DueIndices(init, now);
      assert forall k :: 0 <= k < |idx0| ==> idx0[k] < n;
      forall i | 0 <= i < n
        ensures reminders[i] == init[i]
      {
      }
    }
  }

  /** Nothing is due exactly when no stored time equals `now`. */
  lemma DueTasksEmptyIff(reminders: seq<Reminder>, now: string)
    ensures DueTasks(reminders, now) == [] <==>
            forall i :: 0 <= i < |reminders| ==> reminders[i].time != now
  {
    DueTasksSelectsMatches(reminders, now);
    var idx := DueIndices(reminders, now);
    if DueTasks(reminders, now) == [] {
      assert idx == [];
    } else {
      assert reminders[idx[0]].time == now;
    }
  }

  /** A reminder saved for a minute is due at a tick reading that minute and
      at no other; the rest of the due list is what it was before. */
  lemma AddedReminderDueOnlyAtItsMinute(reminders: seq<Reminder>, task: string, at: ClockTime, now: ClockTime)
    ensures DueTasks(reminders + [NewEntry(task, at)], FormatHHMM(now)) ==
            DueTasks(reminders, FormatHHMM(now)) + (if at == now then [task] else [])
  {
    var rs := reminders + [NewEntry(task, at)];
    assert rs[..|rs| - 1] == reminders;
    FormatInjective(at, now);
  }

  const ToastPrefix: string := "\U{23F0} Reminder: "

  /** The toast text for a non-empty due list: `"⏰ Reminder: " + ", ".join(due)`. */
  function ReminderText(due: seq<string>): string
  {
    ToastPrefix + Join(due, ", ")
  }

  /** The toast names each due task once, in order, between `", "` separators:
      the last task follows the toast for the others after a `", "`. */
  lemma ReminderTextShape(due: seq<string>)
    requires due != []
    ensures var t := ReminderText(due);
            t[..|ToastPrefix|] == ToastPrefix &&
            |t| == |ToastPrefix| + TotalLength(due) + 2 * (|due| - 1)
    ensures |due| == 1 ==> ReminderText(due) == ToastPrefix + due[0]
    ensures |due| > 1 ==> ReminderText(due) == ReminderText(due[..|due| - 1]) + ", " + due[|due| - 1]
  {
    JoinLength(due, ", ");
    if |due| > 1 {
      var init := due[..|due| - 1];
      assert due == init + [due[|due| - 1]];
      JoinSnoc(init, due[|due| - 1], ", ");
    }
  }

  /** What one tick does: the loaded list could not be read (the thread dies
      with the exception), nothing is due, or one toast is raised. */
  datatype TickOutcome = Crashed(error: LoadError) | Quiet | Toast(text: string)

  /** One iteration of `reminder_loop` with the clock reading `now`. */
  method Tick(file: ReminderFile, now: ClockTime) returns (o: TickOutcome)
    ensures LoadReminders(file.state).Failure? ==> o == Crashed(LoadReminders(file.state).error)
    ensures LoadReminders(file.state).Success? ==>
              var due := DueTasks(LoadReminders(file.state).value, FormatHHMM(now));
              (o == Quiet <==> due == []) &&
              (due != [] ==> o == Toast(ReminderText(due)))
  {
    var stamp := FormatHHMM(now);
    var loaded := file.Load();
    if loaded.Failure? {
      o := Crashed(loaded.error);
      return;
    }
    var due := DueTasks(loaded.value, stamp);
    if due != [] {
      o := Toast(ReminderText(due));
    } else {
      o := Quiet;
    }
  }
}
