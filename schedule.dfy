/** The weekly timetable, the jobs derived from it, and the state transitions of the
    proxy manager's bookkeeping as functions of its abstract state. */
module Schedule {
  import opened Values
  import opened Clock
  import opened Notifier

  /** One class of a day: `{ class, endTime, location }`. */
  datatype ClassEntry = ClassEntry(name: string, endTime: string, location: string)

  /** `this.classSchedule`: the own keys of the object and their class lists. */
  type Timetable = map<string, seq<ClassEntry>>

  /** What a job was scheduled with: the minute and hour of its cron rule
      `minute hour * * *`, and what it does when it fires. */
  datatype JobSpec = JobSpec(minute: Num, hour: Num, payload: Payload)

  /** The names `toLocaleDateString('en-US', { weekday: 'long' })` yields. */
  const Weekdays: set<string> :=
    {"Monday", "Tuesday", "Wednesday", "Thursday", "Friday", "Saturday", "Sunday"}

  /** Names every object inherits from `Object.prototype`; looking one up yields a
      truthy value even though it is not an own key. */
  const InheritedKeys: set<string> :=
    {"constructor", "hasOwnProperty", "isPrototypeOf", "propertyIsEnumerable",
     "toString", "toLocaleString", "valueOf", "__proto__",
     "__defineGetter__", "__defineSetter__", "__lookupGetter__", "__lookupSetter__"}

  function Entry(name: string, h: nat, location: string): ClassEntry
    requires h < 24
  {
    ClassEntry(name, TimeString(h, 0), location)
  }

  /** The timetable the constructor builds: Monday to Friday, three classes each. */
  function InitialTimetable(): (t: Timetable)
    ensures t.Keys == {"Monday", "Tuesday", "Wednesday", "Thursday", "Friday"}
    ensures |t["Monday"]| == |t["Tuesday"]| == |t["Wednesday"]| == 3
    ensures |t["Thursday"]| == |t["Friday"]| == 3
  {
    map[
      "Monday" := [Entry("ADS", 10, "TG-421 (Gaganpreet)"),
                   Entry("CC", 13, "TG-421 (Righa)"),
                   Entry("Information Systems", 16, "TG-421 (Sati)")],
      "Tuesday" := [Entry("ADS", 10, "TG-421 (Gaganpreet)"),
                    Entry("Information Systems", 13, "TG-421 (Sati)"),
                    Entry("Network Security", 16, "TG-421 (Shivani)")],
      "Wednesday" := [Entry("ADS", 10, "TG-421 (Gaganpreet)"),
                      Entry("Information Systems", 13, "TG-421 (Sati)"),
                      Entry("Network Security", 16, "TG-421 (Shivani)")],
      "Thursday" := [Entry("CISCO", 10, "TG-421 (T-30)"),
                     Entry("CC", 13, "TG-421 (Righa)"),
                     Entry("VM", 16, "TG-421 (Gaganpreet/T-14)")],
      "Friday" := [Entry("CISCO", 10, "TG-421 (T-30)"),
                   Entry("CC", 13, "TG-421 (Righa)"),
                   Entry("VM", 16, "TG-421 (Gaganpreet/T-14)")]
    ]
  }

  /** An entry whose end time reads as a real time of day. */
  predicate WellFormed(e: ClassEntry)
  {
    IsClockTime(ParseTime(e.endTime))
  }

  /** Every end time in the initial timetable reads as a real time of day. */
  lemma InitialTimetableWellFormed()
    ensures forall d, e :: d in InitialTimetable() && e in InitialTimetable()[d] ==> WellFormed(e)
  {
    forall d, e | d in InitialTimetable() && e in InitialTimetable()[d]
      ensures WellFormed(e)
    {
      EntryWellFormed(e.name, if e.endTime == TimeString(10, 0) then 10
                              else if e.endTime == TimeString(13, 0) then 13 else 16, e.location);
    }
  }

  /** An entry built on the hour has an end time that reads back as that hour. */
  lemma EntryWellFormed(name: string, h: nat, location: string)
    requires h < 24
    ensures WellFormed(Entry(name, h, location))
  {
    ParseTimeString(h, 0);
  }

  /** `if (this.classSchedule[day])`: an own key (whose list is an array, so truthy) or
      a name inherited from `Object.prototype`. */
  predicate DayAccepted(t: Timetable, day: string)
    ensures day in Weekdays ==> (DayAccepted(t, day) <==> day in t)
    ensures day in t ==> DayAccepted(t, day)
  {
    day in t || day in InheritedKeys
  }

  /** The weekend and any other unknown name are rejected by the initial timetable. */
  lemma InitialTimetableRejects(day: string)
    requires day !in {"Monday", "Tuesday", "Wednesday", "Thursday", "Friday"}
    requires day !in InheritedKeys
    ensures !DayAccepted(InitialTimetable(), day)
  {
  }

  /** The job `scheduleTodaysMessages` arms for one class. */
  function ClassJob(e: ClassEntry, sendEarlier: int): (job: JobSpec)
    ensures job.payload == Notify(e.name, e.location, None)
    ensures WellFormed(e) && 0 <= sendEarlier <= 60 ==>
      IsClockTime(HourMinute(job.hour, job.minute)) &&
      MinuteOfDay(HourMinute(job.hour, job.minute)) % 1440
        == (MinuteOfDay(ParseTime(e.endTime)) - sendEarlier) % 1440
  {
    var at := CalculateEarlierTime(e.endTime, sendEarlier);
    JobSpec(at.minute, at.hour, Notify(e.name, e.location, None))
  }

  /** The jobs for a day's classes, in timetable order. */
  function ClassJobs(entries: seq<ClassEntry>, sendEarlier: int): (jobs: seq<JobSpec>)
    ensures |jobs| == |entries|
    ensures forall i :: 0 <= i < |entries| ==> jobs[i] == ClassJob(entries[i], sendEarlier)
    decreases |entries|
  {
    if entries == [] then []
    else ClassJobs(entries[..|entries| - 1], sendEarlier) + [ClassJob(entries[|entries| - 1], sendEarlier)]
  }

  /** The jobs for today: one per class, or none when today is not a key. */
  function TodaysJobs(t: Timetable, today: string, sendEarlier: int): (jobs: seq<JobSpec>)
    ensures |jobs| == if today in t then |t[today]| else 0
    ensures today !in t ==> jobs == []
  {
    if today in t then ClassJobs(t[today], sendEarlier) else []
  }

  /** With a lead of at most an hour and well-formed end times, every job for today
      fires at a real time of day that is its class's end time minus the lead, modulo
      a day, and sends that class's reminder. */
  lemma TodaysJobsFireBeforeEnd(t: Timetable, today: string, sendEarlier: int)
    requires 0 <= sendEarlier <= 60
    requires today in t ==> forall e :: e in t[today] ==> WellFormed(e)
    ensures |TodaysJobs(t, today, sendEarlier)| == if today in t then |t[today]| else 0
    ensures forall i :: 0 <= i < |TodaysJobs(t, today, sendEarlier)| ==>
      var job := TodaysJobs(t, today, sendEarlier)[i];
      var at := HourMinute(job.hour, job.minute);
      var e := t[today][i];
      IsClockTime(at) &&
      MinuteOfDay(at) % 1440 == (MinuteOfDay(ParseTime(e.endTime)) - sendEarlier) % 1440 &&
      job.payload == Notify(e.name, e.location, None)
  {
    var jobs := TodaysJobs(t, today, sendEarlier);
    forall i | 0 <= i < |jobs|
      ensures var at := HourMinute(jobs[i].hour, jobs[i].minute);
        IsClockTime(at) &&
        MinuteOfDay(at) % 1440 == (MinuteOfDay(ParseTime(t[today][i].endTime)) - sendEarlier) % 1440
    {
      var e := t[today][i];
      assert e in t[today];
      EarlierTimeIsClockTime(ParseTime(e.endTime), sendEarlier);
    }
  }

  // ---------------------------------------------------------------------------
  // The manager's abstract state and its transitions
  // ---------------------------------------------------------------------------

  /** The timetable, the configuration and the jobs in `this.scheduleJobs`. */
  datatype State = State(timetable: Timetable, config: Config, jobs: seq<JobSpec>)

  /** `clearScheduledJobs`. */
  function Cleared(s: State): (r: State)
    ensures r.jobs == [] && r.timetable == s.timetable && r.config == s.config
  {
    s.(jobs := [])
  }

  /** `scheduleTodaysMessages`: appends, and never clears. */
  function ScheduledToday(s: State, today: string): (r: State)
    ensures r.timetable == s.timetable && r.config == s.config
    ensures |r.jobs| == |s.jobs| + (if today in s.timetable then |s.timetable[today]| else 0)
    ensures r.jobs[..|s.jobs|] == s.jobs
  {
    s.(jobs := s.jobs + TodaysJobs(s.timetable, today, s.config.sendEarlier))
  }

  /** Clear, then schedule today: what midnight and a same-day timetable update do. */
  function Rescheduled(s: State, today: string): State
  {
    ScheduledToday(Cleared(s), today)
  }

  /** `scheduleTestMessage(hour, minute)` and `scheduleCustomMessage(hour, minute, message)`. */
  function WithJob(s: State, job: JobSpec): (r: State)
    ensures r.timetable == s.timetable && r.config == s.config
    ensures |r.jobs| == |s.jobs| + 1 && r.jobs[..|s.jobs|] == s.jobs && r.jobs[|s.jobs|] == job
  {
    s.(jobs := s.jobs + [job])
  }

  /** Where `this.classSchedule[day] = newSchedule` stores the list: the own key, except
      for `__proto__`, whose setter replaces the prototype instead. */
  function StoreDay(t: Timetable, day: string, entries: seq<ClassEntry>): (r: Timetable)
    ensures day == "__proto__" ==> r == t
    ensures day != "__proto__" ==> r.Keys == t.Keys + {day} && r[day] == entries
    ensures forall d :: d in t && d != day ==> d in r && r[d] == t[d]
  {
    if day == "__proto__" then t else t[day := entries]
  }

  /** `updateClassSchedule(day, newSchedule)` on the day `today`. */
  function ScheduleUpdated(s: State, day: string, entries: seq<ClassEntry>, today: string): (r: State)
    ensures !DayAccepted(s.timetable, day) ==> r == s
    ensures r.config == s.config
    ensures today != day ==> r.jobs == s.jobs
  {
    if !DayAccepted(s.timetable, day) then s
    else
      var stored := s.(timetable := StoreDay(s.timetable, day, entries));
      if today == day then Rescheduled(stored, today) else stored
  }

  /** `updateConfig(newConfig)`. */
  function ConfigUpdated(s: State, patch: ConfigPatch): (r: State)
    ensures r.timetable == s.timetable && r.jobs == s.jobs
    ensures r.config == Merge(s.config, patch)
  {
    s.(config := Merge(s.config, patch))
  }

  /** Scheduling today appends one job per class of today in timetable order, each at
      the class's end time moved earlier by the lead, and keeps the jobs already there. */
  lemma ScheduledTodayAppends(s: State, today: string)
    ensures var r := ScheduledToday(s, today);
      r.timetable == s.timetable && r.config == s.config &&
      |r.jobs| == |s.jobs| + (if today in s.timetable then |s.timetable[today]| else 0) &&
      r.jobs[..|s.jobs|] == s.jobs &&
      forall i :: |s.jobs| <= i < |r.jobs| ==>
        var e := s.timetable[today][i - |s.jobs|];
        var at := CalculateEarlierTime(e.endTime, s.config.sendEarlier);
        r.jobs[i] == JobSpec(at.minute, at.hour, Notify(e.name, e.location, None))
  {
  }

  /** After clear-then-schedule the job list holds exactly today's class jobs. */
  lemma RescheduledHoldsToday(s: State, today: string)
    ensures var r := Rescheduled(s, today);
      r.jobs == TodaysJobs(s.timetable, today, s.config.sendEarlier) &&
      |r.jobs| == (if today in s.timetable then |s.timetable[today]| else 0) &&
      (forall i :: 0 <= i < |r.jobs| ==> r.jobs[i].payload.Notify? && r.jobs[i].payload.custom.None?)
  {
  }

  /** Rescheduling twice gives the same job list as rescheduling once. */
  lemma RescheduledIdempotent(s: State, today: string)
    ensures Rescheduled(Rescheduled(s, today), today) == Rescheduled(s, today)
  {
  }

  /** On a key of the timetable only that day's list is replaced; other days, the
      configuration and, unless the day is today, the jobs are unchanged. */
  lemma UpdateKnownDay(s: State, day: string, entries: seq<ClassEntry>, today: string)
    requires day in s.timetable && day != "__proto__"
    ensures var r := ScheduleUpdated(s, day, entries, today);
      r.timetable.Keys == s.timetable.Keys &&
      r.timetable[day] == entries &&
      (forall d :: d in s.timetable && d != day ==> r.timetable[d] == s.timetable[d]) &&
      r.config == s.config &&
      (today != day ==> r.jobs == s.jobs)
  {
  }

  /** Updating today's list rebuilds the jobs from the new list: one job per new entry,
      each a class reminder, so earlier test and custom jobs are gone. */
  lemma UpdateTodayRebuildsJobs(s: State, day: string, entries: seq<ClassEntry>, today: string)
    requires today in Weekdays && day == today && DayAccepted(s.timetable, day)
    ensures var r := ScheduleUpdated(s, day, entries, today);
      r.jobs == ClassJobs(entries, s.config.sendEarlier) &&
      |r.jobs| == |entries| &&
      forall i :: 0 <= i < |r.jobs| ==> r.jobs[i].payload == Notify(entries[i].name, entries[i].location, None)
  {
    assert day != "__proto__";
  }
}
