/** The `ProxyManager` class of proxy.js: its timetable, configuration and list of
    armed jobs, and the methods that update them. The scheduler library is replaced by
    `Job` objects that keep their cron minute and hour and can be cancelled; "today"
    and the transport's verdict on a send are parameters. */
module Proxy {
  import opened Values
  import opened Clock
  import opened Notifier
  import opened Schedule

  /** A job handle as `schedule.scheduleJob` returns it. */
  class Job {
    const minute: Num
    const hour: Num
    const payload: Payload
    var cancelled: bool

    constructor (minute: Num, hour: Num, payload: Payload)
      ensures this.minute == minute && this.hour == hour && this.payload == payload
      ensures !cancelled
    {
      this.minute := minute;
      this.hour := hour;
      this.payload := payload;
      cancelled := false;
    }

    function Spec(): JobSpec
    {
      JobSpec(minute, hour, payload)
    }

    /** `job.cancel()`. */
    method Cancel()
      modifies this
      ensures cancelled
    {
      cancelled := true;
    }
  }

  /** What each job of a list was scheduled with, in list order. */
  function Specs(jobs: seq<Job>): (specs: seq<JobSpec>)
    ensures |specs| == |jobs|
    decreases |jobs|
  {
    if jobs == [] then [] else Specs(jobs[..|jobs| - 1]) + [jobs[|jobs| - 1].Spec()]
  }

  /** Appending a job appends its spec, and keeps the jobs before it. */
  lemma SpecsAppend(jobs: seq<Job>, job: Job)
    ensures Specs(jobs + [job]) == Specs(jobs) + [job.Spec()]
    ensures (jobs + [job])[..|jobs|] == jobs
  {
    assert (jobs + [job])[..|jobs|] == jobs;
  }

  /** One more entry of the day gives one more job at the end. */
  lemma ClassJobsAppend(entries: seq<ClassEntry>, i: nat, sendEarlier: int)
    requires i < |entries|
    ensures ClassJobs(entries[..i + 1], sendEarlier) == ClassJobs(entries[..i], sendEarlier) + [ClassJob(entries[i], sendEarlier)]
  {
    assert entries[..i + 1][..i] == entries[..i];
  }

  class ProxyManager {
    var classSchedule: Timetable
    var config: Config
    var scheduleJobs: seq<Job>

    /** The manager's state as the functions of module Schedule see it. */
    ghost function View(): State
      reads this
    {
      State(classSchedule, config, Specs(scheduleJobs))
    }

    /** Every job in the list is still armed. */
    ghost predicate Armed()
      reads this, scheduleJobs
    {
      forall j :: j in scheduleJobs ==> !j.cancelled
    }

    /** The constructor, with `process.env.FRIEND_PHONE` passed in. */
    constructor (friendPhone: Option<string>)
      ensures View() == State(InitialTimetable(), DefaultConfig(friendPhone), [])
      ensures Armed()
    {
      classSchedule := InitialTimetable();
      config := DefaultConfig(friendPhone);
      scheduleJobs := [];
    }

    /** `clearScheduledJobs()`: cancels every listed job, then empties the list. */
    method ClearScheduledJobs()
      modifies this, scheduleJobs
      ensures View() == Cleared(old(View()))
      ensures scheduleJobs == []
      ensures forall j :: j in old(scheduleJobs) ==> j.cancelled
    {
      var i := 0;
      while i < |scheduleJobs|
        invariant 0 <= i <= |scheduleJobs|
        invariant scheduleJobs == old(scheduleJobs)
        invariant classSchedule == old(classSchedule) && config == old(config)
        invariant forall k :: 0 <= k < i ==> scheduleJobs[k].cancelled
      {
        scheduleJobs[i].Cancel();
        i := i + 1;
      }
      scheduleJobs := [];
    }

    /** `this.scheduleJobs.push(job)` for a job that is armed. */
    method Push(job: Job)
      requires Armed() && !job.cancelled
      modifies this`scheduleJobs
      ensures scheduleJobs == old(scheduleJobs) + [job]
      ensures Specs(scheduleJobs) == Specs(old(scheduleJobs)) + [job.Spec()]
      ensures Armed()
    {
      SpecsAppend(scheduleJobs, job);
      scheduleJobs := scheduleJobs + [job];
    }

    /** The loop of `scheduleTodaysMessages`: one fresh job per entry, appended in
        order, each at the entry's end time moved `lead` minutes earlier. */
    method AppendClassJobs(entries: seq<ClassEntry>, lead: int)
      requires Armed()
      modifies this`scheduleJobs
      ensures Specs(scheduleJobs) == Specs(old(scheduleJobs)) + ClassJobs(entries, lead)
      ensures scheduleJobs[..|old(scheduleJobs)|] == old(scheduleJobs)
      ensures forall k :: |old(scheduleJobs)| <= k < |scheduleJobs| ==> fresh(scheduleJobs[k])
      ensures Armed()
    {
      ghost var before := scheduleJobs;
      var i := 0;
      while i < |entries|
        invariant 0 <= i <= |entries|
        invariant |scheduleJobs| == |before| + i
        invariant scheduleJobs[..|before|] == before
        invariant Specs(scheduleJobs) == Specs(before) + ClassJobs(entries[..i], lead)
        invariant forall k :: |before| <= k < |scheduleJobs| ==> fresh(scheduleJobs[k])
        invariant Armed()
      {
        var earlierTime := CalculateEarlierTime(entries[i].endTime, lead);
        var job := new Job(earlierTime.minute, earlierTime.hour, Notify(entries[i].name, entries[i].location, None));
        ClassJobsAppend(entries, i, lead);
        Push(job);
        i := i + 1;
      }
      assert entries[..i] == entries;
    }

    /** `scheduleTodaysMessages()` on the weekday `today`: appends one fresh job per
        class of today; the jobs already listed stay as they are. */
    method ScheduleTodaysMessages(today: string)
      requires today in Weekdays
      requires Armed()
      modifies this`scheduleJobs
      ensures View() == ScheduledToday(old(View()), today)
      ensures Armed()
      ensures scheduleJobs[..|old(scheduleJobs)|] == old(scheduleJobs)
      ensures forall i :: |old(scheduleJobs)| <= i < |scheduleJobs| ==> fresh(scheduleJobs[i])
    {
      if today in classSchedule {
        AppendClassJobs(classSchedule[today], config.sendEarlier);
      } else {
        assert TodaysJobs(classSchedule, today, config.sendEarlier) == [];
      }
    }

    /** `scheduleTestMessage(hour, minute)`: appends and returns one test job. */
    method ScheduleTestMessage(hour: int, minute: int) returns (job: Job)
      requires Armed()
      modifies this
      ensures fresh(job) && job.Spec() == JobSpec(Int(minute), Int(hour), TestReminder)
      ensures scheduleJobs == old(scheduleJobs) + [job]
      ensures View() == WithJob(old(View()), job.Spec())
      ensures Armed()
    {
      job := new Job(Int(minute), Int(hour), TestReminder);
      Push(job);
    }

    /** `scheduleCustomMessage(hour, minute, message)`: appends and returns one job that
        sends `message` with "Custom" and "N/A" as class and location. */
    method ScheduleCustomMessage(hour: int, minute: int, message: Option<string>) returns (job: Job)
      requires Armed()
      modifies this
      ensures fresh(job) && job.Spec() == JobSpec(Int(minute), Int(hour), Notify("Custom", "N/A", message))
      ensures scheduleJobs == old(scheduleJobs) + [job]
      ensures View() == WithJob(old(View()), job.Spec())
      ensures Armed()
    {
      job := new Job(Int(minute), Int(hour), Notify("Custom", "N/A", message));
      Push(job);
    }

    /** `updateConfig(newConfig)`: a shallow merge; jobs and timetable are untouched. */
    method UpdateConfig(patch: ConfigPatch)
      modifies this
      ensures View() == ConfigUpdated(old(View()), patch)
      ensures scheduleJobs == old(scheduleJobs)
    {
      config := Merge(config, patch);
    }

    /** `updateClassSchedule(day, newSchedule)` on the weekday `today`. */
    method UpdateClassSchedule(day: string, newSchedule: seq<ClassEntry>, today: string)
      requires today in Weekdays
      requires Armed()
      modifies this, scheduleJobs
      ensures View() == ScheduleUpdated(old(View()), day, newSchedule, today)
      ensures Armed()
      ensures today != day || !DayAccepted(old(classSchedule), day) ==>
        scheduleJobs == old(scheduleJobs) && forall j :: j in scheduleJobs ==> j.cancelled == old(j.cancelled)
      ensures today == day && DayAccepted(old(classSchedule), day) ==>
        forall j :: j in old(scheduleJobs) ==> j.cancelled
    {
      if day in classSchedule || day in InheritedKeys {
        if day != "__proto__" {
          classSchedule := classSchedule[day := newSchedule];
        }
        if today == day {
          ClearScheduledJobs();
          ScheduleTodaysMessages(today);
        }
      }
    }

    /** The part of the `ready` handler that schedules: today's jobs, then the midnight
        job, which is not put in the list and so is never counted or cleared. */
    method HandleClientReady(today: string) returns (midnight: Job)
      requires today in Weekdays
      requires Armed()
      modifies this
      ensures View() == ScheduledToday(old(View()), today)
      ensures Armed()
      ensures fresh(midnight) && midnight.Spec() == JobSpec(Int(0), Int(0), DayRollover)
      ensures midnight !in scheduleJobs
    {
      ScheduleTodaysMessages(today);
      midnight := new Job(Int(0), Int(0), DayRollover);
    }

    /** The midnight job's callback: clear, then schedule the new day. */
    method MidnightRollover(today: string)
      requires today in Weekdays
      requires Armed()
      modifies this, scheduleJobs
      ensures View() == Rescheduled(old(View()), today)
      ensures Armed()
      ensures forall j :: j in old(scheduleJobs) ==> j.cancelled
    {
      ClearScheduledJobs();
      ScheduleTodaysMessages(today);
    }

    /** `sendWhatsAppMessage(className, location, customMessage)`: the message goes to
        the configured recipient; the result is whether the transport accepted it. */
    method SendWhatsAppMessage(className: string, location: string, custom: Option<string>,
                               accepts: Message -> bool)
      returns (ok: bool, sent: Message)
      ensures sent.chatId == ChatId(config.friendPhone)
      ensures sent.text == MessageText(className, location, custom, config.message)
      ensures ok == accepts(sent)
    {
      sent := WhatsAppMessage(config, className, location, custom);
      ok := accepts(sent);
    }

    /** `sendTestMessage()`: the fixed test text to the configured recipient. */
    method SendTestMessage(accepts: Message -> bool) returns (ok: bool, sent: Message)
      ensures sent.chatId == ChatId(config.friendPhone) && sent.text == TestText
      ensures ok == accepts(sent)
    {
      sent := TestMessage(config);
      ok := accepts(sent);
    }
  }
}
