/** The reminder file `memory.json` and the three operations on it:
    `load_reminders`, `save_reminders` and the "Set Reminder" form's
    load-append-save (ai_friend.py:30-42, 100-102).

    JSON text is not modelled. The file is one of a few abstract states:
    missing, zero bytes, text that is not valid JSON, a decoded value that is
    not an object, or a decoded object whose fields are named. */
module ReminderStore {

  import opened Wrappers
  import opened Clock

  /** One stored entry, `{"task": ..., "time": ...}`. The time is whatever
      string the file holds; entries written by this program hold `"HH:MM"`. */
  datatype Reminder = Reminder(task: string, time: string)

  datatype FileState =
    | Absent                                   // os.path.exists is false
    | Empty                                    // os.path.getsize is 0
    | Malformed                                // text that is not valid JSON: json.load raises JSONDecodeError
    | NonObject                                // decodes, but to a list, string, number, ...
    | Object(fields: map<string, seq<Reminder>>)

  /** `data.get(...)` on a decoded value that is not a dict raises
      AttributeError, which `load_reminders` does not catch. */
  datatype LoadError = AttributeError

  const RemindersKey: string := "reminders"

  /** `load_reminders()` as a function of the file's state. */
  function LoadReminders(f: FileState): (r: Result<seq<Reminder>, LoadError>)
    ensures r.Failure? <==> f.NonObject?
    ensures f.Object? && RemindersKey in f.fields ==> r == Success(f.fields[RemindersKey])
    ensures r.Success? && r.value != [] ==>
              f.Object? && RemindersKey in f.fields && f.fields[RemindersKey] == r.value
  {
    match f
    case Absent => Success([])
    case Empty => Success([])
    case Malformed => Success([])
    case NonObject => Failure(AttributeError)
    case Object(fields) => Success(if RemindersKey in fields then fields[RemindersKey] else [])
  }

  /** The file's state after `save_reminders(reminders)`: an object with the
      single field `"reminders"`. */
  function SaveReminders(reminders: seq<Reminder>): (f: FileState)
    ensures f.Object? && f.fields.Keys == {RemindersKey}
  {
    Object(map[RemindersKey := reminders])
  }

  /** Missing, zero-size and not-valid-JSON files all load as no reminders, and
      so does an object without a `"reminders"` field. */
  lemma LoadToleratesBadFiles(fields: map<string, seq<Reminder>>)
    requires RemindersKey !in fields
    ensures LoadReminders(Absent) == Success([])
    ensures LoadReminders(Empty) == Success([])
    ensures LoadReminders(Malformed) == Success([])
    ensures LoadReminders(Object(fields)) == Success([])
  {
  }

  /** Loading after saving gives back exactly the saved list. */
  lemma LoadAfterSave(reminders: seq<Reminder>)
    ensures LoadReminders(SaveReminders(reminders)) == Success(reminders)
  {
  }

  /** Saving what was loaded changes nothing a later load can see. */
  lemma SaveLoadedIsInvisible(f: FileState)
    requires LoadReminders(f).Success?
    ensures LoadReminders(SaveReminders(LoadReminders(f).value)) == LoadReminders(f)
  {
    LoadAfterSave(LoadReminders(f).value);
  }

  /** The entry the form appends: the task as typed (not checked) and the
      chosen time rendered `"%H:%M"`. */
  function NewEntry(task: string, at: ClockTime): (e: Reminder)
    ensures e.task == task && ParseHHMM(e.time) == Some(at)
  {
    ParseFormat(at);
    Reminder(task, FormatHHMM(at))
  }

  /** The shared reminder file, read by the scheduler and rewritten by the form. */
  class ReminderFile {
    var state: FileState

    constructor (initial: FileState)
      ensures state == initial
    {
      state := initial;
    }

    /** `load_reminders()`. */
    method Load() returns (r: Result<seq<Reminder>, LoadError>)
      ensures r == LoadReminders(state)
    {
      r := LoadReminders(state);
    }

    /** `save_reminders(reminders)`: overwrites the whole file. */
    method Save(reminders: seq<Reminder>)
      modifies this
      ensures state == SaveReminders(reminders)
    {
      state := Object(map[RemindersKey := reminders]);
    }

    /** The "Set Reminder" form on submit: load, append `{task, time}`, save.
        If loading raises, nothing is written. */
    method AddReminder(task: string, at: ClockTime) returns (r: Result<seq<Reminder>, LoadError>)
      modifies this
      ensures old(LoadReminders(state)).Failure? ==>
                r == old(LoadReminders(state)) && state == old(state)
      ensures old(LoadReminders(state)).Success? ==>
                r == Success(old(LoadReminders(state)).value + [NewEntry(task, at)]) &&
                state == SaveReminders(r.value) &&
                LoadReminders(state) == r
    {
      var loaded := Load();
      if loaded.Failure? {
        r := loaded;
        return;
      }
      var reminders := loaded.value + [Reminder(task, FormatHHMM(at))];
      Save(reminders);
      r := Success(reminders);
    }
  }

  /** Adding keeps every earlier entry where it was and puts the new one last. */
  lemma AddKeepsEarlierEntries(f: FileState, task: string, at: ClockTime)
    requires LoadReminders(f).Success?
    ensures var before := LoadReminders(f).value;
            var after := LoadReminders(SaveReminders(before + [NewEntry(task, at)])).value;
            |after| == |before| + 1 &&
            after[..|before|] == before &&
            after[|before|].task == task &&
            after[|before|].time == FormatHHMM(at)
  {
    var before := LoadReminders(f).value;
    LoadAfterSave(before + [NewEntry(task, at)]);
  }
}
