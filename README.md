# AI companion: reminders, scheduler tick and chat turns

A Dafny model of the live core of `ai_friend.py`, a Streamlit chat page that
talks to a local language model and keeps time-tagged reminders in
`memory.json`. The model covers four parts:

- **Reminder store** (`reminder_store.dfy`, module `ReminderStore`). The file
  is an abstract state: missing, zero bytes, content that is not valid JSON,
  decoded to a non-object, or decoded to an object with named fields.
  - `LoadReminders` is `load_reminders` and `SaveReminders` is `save_reminders`.
  - The class `ReminderFile` holds that state. Its methods `Load`, `Save` and
    `AddReminder` (the "Set Reminder" form: load, append, save) update it in place.
- **Clock readings** (`clock.dfy`, module `Clock`). `FormatHHMM` is
  `strftime("%H:%M")`. `ParseHHMM` is its inverse, so comparing rendered
  strings is the same as comparing minutes of the day.
- **Scheduler tick** (`scheduler.dfy`, module `Scheduler`). This is one pass of
  the body of `reminder_loop`.
  - `DueTasks` is the due-list comprehension and `ReminderText` the toast text.
  - `Tick` loads the file, selects what is due at the given clock reading and
    returns the toast (or nothing, or the exception that kills the thread).
- **Conversation** (`conversation.dfy`, module `Conversation`; `session.dfy`,
  module `Companion`).
  - `Transcript` joins `"<Type>: <content>"` lines with newlines.
    `BuildPrompt` fills the fixed template. `DisplayRole` maps a message to its chat bubble.
  - `CompanionSession.Turn` is one `if question:` block. It builds the prompt,
    invokes the model, and only then appends the question and the reply.
- `text.dfy` (module `Text`) holds Python's `join`, `split` and `capitalize` on
  strings. `wrappers.dfy` (module `Wrappers`) holds `Option` and `Result`.

Behaviour of the code worth stating plainly:
- Transcript labels are `msg.type.capitalize()`, so they read `"Human"` and
  `"Ai"`. They are not `"User"` and `"Assistant"`.
- Adding a reminder does not reject an empty task.
- Saving overwrites the file directly. There is no atomic replace.
- A file that decodes to something other than a JSON object makes
  `data.get` raise. That exception is not swallowed: `AddReminder` stops before
  writing, and `Tick` reports it as `Crashed`.
- A failing model call is an exception, not a typed error. The history is left
  untouched because the appends come after the call.

## Model

| member | source | states |
|---|---|---|
| ReminderStore.LoadReminders | ai_friend.py:30-38 | loading fails only for a decoded non-object; a non-empty list can only come from the object's `"reminders"` field |
| ReminderStore.SaveReminders | ai_friend.py:40-42 | saving writes an object whose only field is `"reminders"` |
| ReminderStore.LoadToleratesBadFiles | ai_friend.py:31-38 | a missing file, a zero-size file, content that is not valid JSON and an object without `"reminders"` all load as `[]` |
| ReminderStore.LoadAfterSave | ai_friend.py:30-42 | loading after `save_reminders(L)` gives back exactly `L` |
| ReminderStore.SaveLoadedIsInvisible | ai_friend.py:30-42 | saving what was just loaded does not change what a later load returns |
| ReminderStore.NewEntry | ai_friend.py:101 | the appended entry keeps the task as typed, and its time string parses back to the chosen time |
| ReminderStore.ReminderFile.Load | ai_friend.py:30-38 | the method returns the load result for the file's current state |
| ReminderStore.ReminderFile.Save | ai_friend.py:40-42 | the file's new state is exactly the saved object |
| ReminderStore.ReminderFile.AddReminder | ai_friend.py:99-102 | if loading raises, nothing is written; otherwise the file holds the old list plus the new `{task, HH:MM}` entry at the end, and loading returns that list |
| ReminderStore.AddKeepsEarlierEntries | ai_friend.py:100-102 | after adding, the list is one longer, earlier entries are unchanged and in order, and the last one is the new task at its `HH:MM` time |
| Clock.FormatHHMM | ai_friend.py:47 | a clock reading renders as five characters, two digits, a colon, two digits |
| Clock.ParseFormat | ai_friend.py:101 | every rendered time parses back to the same hour and minute |
| Clock.FormatParse | ai_friend.py:47 | every well-formed `HH:MM` string is the rendering of the time it parses to |
| Clock.FormatInjective | ai_friend.py:47-49 | two clock readings render to the same string exactly when they are the same minute |
| Scheduler.DueTasksSelectsMatches | ai_friend.py:49 | the due list holds the task of each stored reminder whose time equals `now` and nothing else, in store order, duplicates kept |
| Scheduler.DueTasksEmptyIff | ai_friend.py:49-50 | nothing is due exactly when no stored time equals `now` |
| Scheduler.AddedReminderDueOnlyAtItsMinute | ai_friend.py:100-102 | a reminder added for h:m is due at a tick reading h:m and at no other minute; the rest of the due list is unchanged |
| Scheduler.ReminderTextShape | ai_friend.py:51 | the toast starts with `"⏰ Reminder: "`; one task gives prefix plus task, and with more tasks the toast is the toast for all but the last, then `", "`, then the last task, so the tasks appear in order with `", "` between each pair |
| Scheduler.Tick | ai_friend.py:47-51 | a tick crashes when loading raises; otherwise it raises a toast exactly when the due list is non-empty, and the toast text is built from that list |
| Conversation.Labels | ai_friend.py:82 | the transcript labels are `"Human"` and `"Ai"`, and they differ |
| Conversation.TranscriptGrows | ai_friend.py:81-83 | an empty history gives `""`; one more message adds a newline and its line |
| Conversation.TranscriptLines | ai_friend.py:81-83 | if no content contains a newline, the transcript splits back into one `"<Label>: <content>"` line per message, in history order |
| Conversation.PromptLayout | ai_friend.py:61-71 | the prompt is the persona, then `"Previous conversation:\n"` and the transcript, and it ends with `"\n\nUser: "`, the question and `"\nAI:"` |
| Conversation.PromptDeterminesQuestion | ai_friend.py:85 | with the transcript fixed, different questions give different prompts |
| Conversation.DisplayRole | ai_friend.py:77 | human messages show as `"user"` and AI messages as `"assistant"`, and both directions hold |
| Companion.CompanionSession.constructor | ai_friend.py:58-59 | a new session starts with an empty history |
| Companion.CompanionSession.Turn | ai_friend.py:80-91 | an empty question changes nothing; the model gets the prompt built from the history before the turn; on failure the history is unchanged; on success the history grows by the question and then the reply, with earlier messages untouched |
| Companion.TurnLines | ai_friend.py:82 | the question's transcript line reads `"Human: <question>"` and the reply's reads `"Ai: <response>"` |
| Companion.TranscriptAfterTurn | ai_friend.py:81-91 | after an answered turn the transcript gains a `"Human: <question>"` line and an `"Ai: <response>"` line |
| Companion.TurnBubbles | ai_friend.py:77 | the two messages a turn adds show as a `"user"` bubble and then an `"assistant"` bubble |

## Left out

- Streamlit rendering is not modelled: the title, chat bubbles, toasts as a display, the form widgets, expander, CSS and page config. The toast is returned as text instead.
- The model client and the prompt template object are not modelled. The model call is a function parameter from prompt to reply or failure.
- The `while True` loop, the daemon thread and `time.sleep(60)` are not modelled. One tick takes the clock reading as a parameter, so drift between ticks cannot be expressed.
- JSON encoding and decoding and real file I/O are not modelled. Write errors on save are left out too.
- Stored values that are not reminder records are left out. This covers a `"reminders"` value that is not a list and an entry missing `"task"` or `"time"`, which can make the source raise.
- File bytes that are not valid text are left out. `json.load` then raises `UnicodeDecodeError`, which `load_reminders` does not catch; the file states model only the `JSONDecodeError` case, which loads as `[]`.
- Capitalisation is modelled for ASCII letters only. The type tags are `"human"` and `"ai"`.
- The user-profile load and save (ai_friend.py:15-26) are trivial file I/O with a default and are left out.
- The commented-out alternative script (ai_friend.py:123-373) is dead code and is left out.
- Concurrent access to the reminder file by the tick and the form is not modelled. Each operation is one atomic step on the file state.
