# Class-ending notification bot: the scheduling bookkeeping of `ProxyManager`

The bot messages one contact shortly before each class of the day ends. Its
`ProxyManager` keeps a weekly timetable (day name to an ordered list of
classes with an `"HH:MM"` end time and a location), a configuration (phone
number, message text, lead `sendEarlier` in minutes, 20 by default) and the
list `scheduleJobs` of cron jobs armed for today. This project models that
bookkeeping in Dafny and proves what it does:

- `Clock` — the fire-time arithmetic of `calculateEarlierTime`: the end time
  is split at `:` and read with `Number` (digit strings; everything else is
  NaN), then the lead is subtracted with a single borrow from the hour and a
  wrap of hour −1 to 23. The lead is not validated, and the model does not
  normalise it: for leads 0..60 the result is proved to be a real time of day
  equal to end − lead modulo a day, and a lead longer than the end minute plus
  60 produces a negative minute.
- `Notifier` — the configuration and its shallow merge (`updateConfig`), the
  chat id `phone + "@c.us"` (with `undefined` for an unset phone), the message
  text (`customMessage || template`), and what each kind of job sends when it
  fires.
- `Schedule` — the timetable, the job each class gets, and the manager's state
  transitions (clear, schedule today, append a test/custom job, update a day,
  update the configuration) as functions of an abstract state, with lemmas
  about them.
- `Proxy` — the `ProxyManager` class itself, with `seq` of `Job` objects and a
  `map` timetable; each method is proved to move the abstract state exactly as
  the matching `Schedule` function says, and to keep every listed job armed.
  `Job` keeps its cron minute and hour (`minute hour * * *`) and its payload;
  `Cancel` sets its `cancelled` flag.

The scheduler library is replaced by the class `Job`: a job records its cron
minute and hour and what it does, and can be cancelled, but nothing fires it.
The wall clock and the messaging client are parameters: "today" is passed in
as one of the seven weekday names, and a send is a call to a function
`accepts` whose result is the boolean the source returns.

Three behaviours of the code are stated outright:

- the lead `sendEarlier` is used as given and the minute borrows from the
  hour only once, so a lead longer than the end minute plus 60 gives a
  negative minute (`Clock.EarlierTimeLongLeadGoesNegative`);
- the test `this.classSchedule[day]` in `updateClassSchedule` accepts, besides
  the timetable's own days, every name an object inherits, such as `toString`
  or `constructor`, and then stores the list under that name
  (`Schedule.DayAccepted`);
- the midnight job armed by the `ready` handler is never pushed onto
  `scheduleJobs`, so it is not counted and `clearScheduledJobs` never cancels
  it (`Proxy.ProxyManager.HandleClientReady`).

## Model

| member | source | states |
|---|---|---|
| `Clock.Split` | proxy.js:138 | `split(':')` always yields at least one piece |
| `Clock.SplitJoin` | proxy.js:138 | joining the pieces with `:` gives the text back, and no piece contains `:` |
| `Clock.SplitWithoutSeparator` | proxy.js:138 | a text without `:` is a single piece |
| `Clock.SplitAroundSeparator` | proxy.js:138 | a text with exactly one `:` splits into the two sides of it |
| `Clock.NumberOf` | proxy.js:138 | `Number` of a text is a number exactly when the text is all digits, that number is never negative, and the empty text reads as 0 |
| `Clock.NumberOfPad2` | proxy.js:138 | `Number` of a two-digit text is its value, "09" included |
| `Clock.ParseTime` | proxy.js:138 | a text without `:` has a NaN minute; hour and minute, when numbers, are not negative; the hour is a number exactly when the text before the first `:` is all digits |
| `Clock.ParseTimeString` | proxy.js:138 | reading an `"HH:MM"` text gives back its hour and minute |
| `Clock.ShiftEarlier` | proxy.js:140-149 | a NaN field stays NaN and a numeric one stays numeric; the minute becomes minute − lead or that plus 60; when the minute covers the lead the hour is kept |
| `Clock.CalculateEarlierTime` | proxy.js:137-155 | for a valid end time and a lead of 0..60 the result is a real time of day equal to end − lead modulo 1440 minutes |
| `Clock.EarlierTimeIsClockTime` | proxy.js:137-155 | for a valid end time and a lead of 0..60 the result has hour 0..23 and minute 0..59 and equals end − lead modulo 1440 minutes |
| `Clock.EarlierTimeBorrowsOnce` | proxy.js:140-149 | the result is end − lead or that plus one day; the minute borrows 60 exactly when the lead exceeds it, and only then does the hour change: it drops by one, and 0 becomes 23 |
| `Clock.EarlierTimeLongLeadGoesNegative` | proxy.js:140-149 | a lead longer than minute + 60 yields a negative minute, not a time of day |
| `Clock.EarlierTimeNaNMinute` | proxy.js:138-149 | a minute that is not a number stays NaN and the hour is kept |
| `Clock.DefaultLeadOnTheHour` | proxy.js:137-155 | with the default lead of 20 any whole hour from 01:00 to 23:00 fires at 40 past the hour before |
| `Clock.DefaultLeadAtTen` | proxy.js:137-155 | with the default lead of 20, 10:00 fires at 9:40 |
| `Clock.DefaultLeadAtFour` | proxy.js:137-155 | with the default lead of 20, 16:00 fires at 15:40 |
| `Clock.DefaultLeadPastMidnight` | proxy.js:137-155 | with the default lead of 20, 00:10 fires at 23:50 |
| `Notifier.DefaultConfig` | proxy.js:42-46 | the phone number as given, the text "Please do proxy" and a lead of 20 minutes |
| `Notifier.Merge` | proxy.js:203-206 | every key present in the update overwrites the old value and every other key keeps it |
| `Notifier.MergeEmpty` | proxy.js:204 | merging an empty object leaves the configuration unchanged |
| `Notifier.MergeIdempotent` | proxy.js:204 | merging the same object twice equals merging it once |
| `Notifier.MergeCompose` | proxy.js:204 | two merges in a row are one merge of the combined object, later keys winning |
| `Notifier.ChatId` | proxy.js:109 | the recipient id always ends in `@c.us` |
| `Notifier.ChatIdRoundTrip` | proxy.js:126 | the recipient id is exactly the phone text followed by `@c.us` |
| `Notifier.ChatIdInjective` | proxy.js:126 | distinct phone numbers give distinct recipient ids |
| `Notifier.Template` | proxy.js:124 | the template opens with "Hey, class " and the class name, ends with the configured text, has " at " + location + " ending soon. " in between, and so is 29 characters longer than class, location and text together |
| `Notifier.MessageText` | proxy.js:123-124 | a non-empty custom text is sent verbatim, a missing or empty one gives the template, and the text is never empty |
| `Notifier.FiredMessage` | proxy.js:166-197 | a class, custom or test job sends one message and the midnight job none; every message goes to the configured recipient; a test job sends the fixed test text, and a class or custom job sends `MessageText` of its class, location and custom text under the configured text of that moment |
| `Notifier.FiredMessageUsesCurrentText` | proxy.js:166-169 | a class job reads the configured text when it fires, so a later configuration update shows in its message |
| `Schedule.InitialTimetable` | proxy.js:14-40 | the constructor's timetable has exactly the keys Monday to Friday, with three classes each |
| `Schedule.InitialTimetableWellFormed` | proxy.js:14-40 | every end time of the constructor's timetable reads as a real time of day |
| `Schedule.DayAccepted` | proxy.js:209 | a weekday name is accepted exactly when it is a key, and every key is accepted |
| `Schedule.InitialTimetableRejects` | proxy.js:208-221 | Saturday, Sunday and any other name not a key nor inherited is rejected by the initial timetable |
| `Schedule.ClassJob` | proxy.js:164-169 | a class's job sends that class's reminder with no custom text; for a valid end time and a lead of 0..60 it fires at a real time of day equal to end − lead modulo a day |
| `Schedule.ClassJobs` | proxy.js:163-171 | one job per class, in timetable order, each at the class's end time moved earlier |
| `Schedule.TodaysJobs` | proxy.js:157-177 | one job per class of today, and none when today is not a key |
| `Schedule.TodaysJobsFireBeforeEnd` | proxy.js:157-177 | with a lead of 0..60 every job for today fires at a real time of day equal to its class's end − lead modulo a day, and sends that class's reminder; a day without a key gets no jobs |
| `Schedule.Cleared` | proxy.js:101-105 | no jobs are left; timetable and configuration are kept |
| `Schedule.ScheduledToday` | proxy.js:157-177 | one job per class of today is appended after the jobs already listed; timetable and configuration are kept |
| `Schedule.WithJob` | proxy.js:179-201 | exactly the given job is appended after the jobs already listed; timetable and configuration are kept |
| `Schedule.StoreDay` | proxy.js:210 | any name but `__proto__` gets the new list and becomes a key, every other key keeps its list; `__proto__` leaves the own keys as they were |
| `Schedule.ScheduleUpdated` | proxy.js:208-222 | a day that is not accepted changes nothing; the configuration is always kept; for a day other than today the jobs are kept |
| `Schedule.ConfigUpdated` | proxy.js:203-206 | the configuration becomes the merge; timetable and jobs are kept |
| `Schedule.ScheduledTodayAppends` | proxy.js:157-177 | scheduling today appends one job per class of today, keeps the jobs already listed, and changes nothing else |
| `Schedule.RescheduledHoldsToday` | proxy.js:79-83 | after clear-then-schedule the list is exactly today's class jobs, so its length is the number of today's classes |
| `Schedule.RescheduledIdempotent` | proxy.js:79-83 | repeating clear-then-schedule gives the same job list |
| `Schedule.UpdateKnownDay` | proxy.js:208-218 | on a key only that day's list is replaced, the other days and the configuration are kept, and for a day other than today the jobs are kept |
| `Schedule.UpdateTodayRebuildsJobs` | proxy.js:213-218 | updating today leaves exactly one class job per new entry, dropping earlier test and custom jobs |
| `Proxy.Job.constructor` | proxy.js:166-169 | a new job records the cron minute and hour and what it does, and starts armed |
| `Proxy.Job.Cancel` | proxy.js:102 | cancelling a job sets its cancelled flag |
| `Proxy.ProxyManager.constructor` | proxy.js:13-48 | starts with the weekly timetable, the default configuration (lead 20) and no jobs |
| `Proxy.ProxyManager.ClearScheduledJobs` | proxy.js:101-105 | every job that was listed is cancelled, the list is empty, timetable and configuration are kept |
| `Proxy.ProxyManager.Push` | proxy.js:171 | the job is appended to the list, its record appended to the abstract jobs, and every listed job stays armed |
| `Proxy.ProxyManager.AppendClassJobs` | proxy.js:163-173 | one fresh job per class, appended in order, each recording its class's job; the jobs already listed stay as they are |
| `Proxy.ProxyManager.ScheduleTodaysMessages` | proxy.js:157-177 | the state becomes `ScheduledToday` of the old state: fresh jobs appended, old ones untouched |
| `Proxy.ProxyManager.ScheduleTestMessage` | proxy.js:179-189 | appends and returns exactly one fresh test job at the given hour and minute |
| `Proxy.ProxyManager.ScheduleCustomMessage` | proxy.js:191-201 | appends and returns exactly one fresh job sending the custom text at the given hour and minute |
| `Proxy.ProxyManager.UpdateConfig` | proxy.js:203-206 | the configuration becomes the shallow merge; the job list is the same list |
| `Proxy.ProxyManager.UpdateClassSchedule` | proxy.js:208-222 | the state becomes `ScheduleUpdated` of the old state; for another day or a rejected one the job list is the same list with the same flags; for today every old job is cancelled |
| `Proxy.ProxyManager.HandleClientReady` | proxy.js:74-84 | schedules today's jobs and arms a midnight job that is not in the list |
| `Proxy.ProxyManager.MidnightRollover` | proxy.js:79-83 | the midnight callback cancels every listed job and leaves exactly today's class jobs |
| `Proxy.ProxyManager.SendWhatsAppMessage` | proxy.js:121-135 | the message goes to `phone@c.us` with the chosen text, and the result is the transport's verdict |
| `Proxy.ProxyManager.SendTestMessage` | proxy.js:107-119 | the fixed test text goes to `phone@c.us`, and the result is the transport's verdict |

## Left out

- The messaging client (construction, `initialize`, the `qr`, `ready`, `auth_failure` and `disconnected` handlers, `destroy`): a foreign browser-automation library; a send is the parameter `accepts`, and the `ready` handler's test send is not modelled, only its scheduling part.
- The cron library: a job is a record of minute, hour and payload; matching, firing and what the library does with an out-of-range or NaN field (it refuses the rule and returns `null`) are not modelled, and the cron text itself is not built. Such a `null` handle would still be pushed onto `scheduleJobs`, and `clearScheduledJobs` would then throw at `job.cancel()` before the list is emptied; the model's jobs are never `null` and it does not follow that failure.
- Weekday resolution from the wall clock and locale: "today" is a parameter, one of the seven weekday names.
- The `SIGINT` shutdown, `process.exit`, the environment reads (the phone number is a constructor parameter), the HTTP routes, `app.listen`, and all console logging, including the zero-padded log line.
- Asynchronous ordering of sends and timer callbacks.
- `Number` is modelled for digit strings (the empty string reads as 0); texts with spaces, a sign, a decimal point, an exponent or a hex prefix read as NaN in the model.
- The configuration holds an integer lead, a string text and an optional phone; an update that gives them other types, or adds other keys, is not modelled.
- `updateClassSchedule` takes an array as the new list; a falsy value (which would make the day rejected afterwards) is not modelled.
- Assigning to `__proto__` replaces the timetable object's prototype; the model leaves the own keys unchanged and does not follow the prototype change.
- A job that a caller cancels through the handle returned by `scheduleTestMessage` or `scheduleCustomMessage`: the model's methods assume every listed job is still armed.
