/**
  The exchange timetable built by `get_scheduler` and the entry guard of
  `exchange_mode_simple`. The scheduler library is modelled abstractly as an
  object that holds a timezone, a list of registered jobs and a running flag;
  when and how it fires jobs is not part of this model.
 */
module Scheduling {
  import opened Wrappers

  /** The good an exchange plan targets; `time` is its sale time as a Unix timestamp. */
  datatype Good = Good(generalName: string, time: int)

  /** One exchange plan: an account (by its community UID) and a good. */
  datatype ExchangePlan = ExchangePlan(bbsUid: string, good: Good)

  /** The user's preferences that `get_scheduler` reads. */
  datatype Preference = Preference(
    timezone: Option<string>,
    enableConnectionTest: bool,
    connectionTestInterval: Option<int>)

  /** The class-level defaults `Preference.timezone` and `Preference.connection_test_interval`. */
  datatype Defaults = Defaults(timezone: string, connectionTestInterval: int)

  /**
    A registered job: the recurring connection test every `seconds` seconds, or a
    one-shot call of `exchange_begin` with argument `plan` at `runDate`.
   */
  datatype Job = IntervalJob(seconds: int) | DateJob(plan: ExchangePlan, runDate: int)

  /** Python truthiness of an optional value whose type's false value is `zero`. */
  predicate Truthy<T(==)>(v: Option<T>, zero: T)
  {
    v.Some? && v.value != zero
  }

  /** Python's `v or fallback`. */
  function Or<T(==)>(v: Option<T>, zero: T, fallback: T): (r: T)
    ensures Truthy(v, zero) ==> r == v.value
    ensures !Truthy(v, zero) ==> r == fallback
  {
    if Truthy(v, zero) then v.value else fallback
  }

  /** `conf.preference.timezone or Preference.timezone`. */
  function EffectiveTimezone(pref: Preference, d: Defaults): string
  {
    Or(pref.timezone, "", d.timezone)
  }

  /** `conf.preference.connection_test_interval or Preference.connection_test_interval`. */
  function EffectiveInterval(pref: Preference, d: Defaults): int
  {
    Or(pref.connectionTestInterval, 0, d.connectionTestInterval)
  }

  /** The one-shot job registered for `plan`: the plan as argument and the good's time as run date. */
  function PlanJob(plan: ExchangePlan): Job
  {
    DateJob(plan, plan.good.time)
  }

  /** The one-shot jobs registered for `plans`, in plan order. */
  function DateJobs(plans: seq<ExchangePlan>): seq<Job>
  {
    if plans == [] then []
    else DateJobs(plans[..|plans| - 1]) + [PlanJob(plans[|plans| - 1])]
  }

  /** The probe job registered before the plans, if connection testing is enabled. */
  function ProbeJobs(pref: Preference, d: Defaults): seq<Job>
  {
    if pref.enableConnectionTest then [IntervalJob(EffectiveInterval(pref, d))] else []
  }

  /** The whole job list `get_scheduler` registers, in registration order. */
  function Timetable(pref: Preference, d: Defaults, plans: seq<ExchangePlan>): seq<Job>
  {
    ProbeJobs(pref, d) + DateJobs(plans)
  }

  /** The plans carried by the one-shot jobs of `jobs`, in order. */
  function PlansOf(jobs: seq<Job>): seq<ExchangePlan>
  {
    if jobs == [] then []
    else match jobs[|jobs| - 1]
      case IntervalJob(_) => PlansOf(jobs[..|jobs| - 1])
      case DateJob(p, _) => PlansOf(jobs[..|jobs| - 1]) + [p]
  }

  // ---------------------------------------------------------------------------
  // Properties of the timetable.

  /** There is one one-shot job per plan; the i-th has the i-th plan as argument and its good's time as run date. */
  lemma {:induction false} DateJobsAt(plans: seq<ExchangePlan>)
    ensures |DateJobs(plans)| == |plans|
    ensures forall i :: 0 <= i < |plans| ==>
      DateJobs(plans)[i] == DateJob(plans[i], plans[i].good.time)
  {
    if plans != [] {
      var n := |plans| - 1;
      DateJobsAt(plans[..n]);
      assert forall i :: 0 <= i < n ==> plans[..n][i] == plans[i];
    }
  }

  /** The number of jobs is the number of plans, plus one when connection testing is enabled. */
  lemma TimetableLength(pref: Preference, d: Defaults, plans: seq<ExchangePlan>)
    ensures |Timetable(pref, d, plans)| == |plans| + (if pref.enableConnectionTest then 1 else 0)
  {
    DateJobsAt(plans);
  }

  /**
    The only recurring job is the probe: when enabled, it is job 0 and every
    later job is a one-shot job; when disabled, every job is a one-shot job.
    Its interval is the preference's when truthy and the default otherwise.
   */
  lemma TimetableProbe(pref: Preference, d: Defaults, plans: seq<ExchangePlan>)
    ensures var t := Timetable(pref, d, plans);
      forall k :: 0 <= k < |t| ==> (t[k].IntervalJob? <==> pref.enableConnectionTest && k == 0)
    ensures pref.enableConnectionTest ==>
      Timetable(pref, d, plans)[0].IntervalJob? &&
      Timetable(pref, d, plans)[0].seconds ==
        (if Truthy(pref.connectionTestInterval, 0) then pref.connectionTestInterval.value
         else d.connectionTestInterval)
  {
    DateJobsAt(plans);
  }

  /** The i-th one-shot job carries `plans[i]` and has run date `plans[i].good.time`. */
  lemma TimetablePlanJob(pref: Preference, d: Defaults, plans: seq<ExchangePlan>, i: nat)
    requires i < |plans|
    ensures var k := i + (if pref.enableConnectionTest then 1 else 0);
      k < |Timetable(pref, d, plans)| &&
      Timetable(pref, d, plans)[k] == DateJob(plans[i], plans[i].good.time)
  {
    DateJobsAt(plans);
  }

  /** Appending a job appends its plan, if it has one. */
  lemma {:induction false} PlansOfAppend(jobs: seq<Job>, more: seq<Job>)
    ensures PlansOf(jobs + more) == PlansOf(jobs) + PlansOf(more)
    decreases |more|
  {
    if more == [] {
      assert jobs + more == jobs;
    } else {
      var n := |more| - 1;
      assert (jobs + more)[..|jobs + more| - 1] == jobs + more[..n];
      PlansOfAppend(jobs, more[..n]);
    }
  }

  /** No plan is dropped, duplicated or reordered: the one-shot jobs carry exactly `plans`. */
  lemma {:induction false} DateJobsCarryPlans(plans: seq<ExchangePlan>)
    ensures PlansOf(DateJobs(plans)) == plans
  {
    if plans != [] {
      var n := |plans| - 1;
      DateJobsCarryPlans(plans[..n]);
      PlansOfAppend(DateJobs(plans[..n]), [PlanJob(plans[n])]);
      assert PlansOf([PlanJob(plans[n])]) == [plans[n]];
      assert plans[..n] + [plans[n]] == plans;
    }
  }

  /** The whole timetable carries exactly `plans`, in order; the probe job carries none. */
  lemma TimetableCarriesPlans(pref: Preference, d: Defaults, plans: seq<ExchangePlan>)
    ensures PlansOf(Timetable(pref, d, plans)) == plans
  {
    PlansOfAppend(ProbeJobs(pref, d), DateJobs(plans));
    DateJobsCarryPlans(plans);
    assert PlansOf(ProbeJobs(pref, d)) == [];
  }

  // ---------------------------------------------------------------------------
  // The scheduler object and the code that fills it.

  /** The scheduler object, reduced to what `get_scheduler` configures. */
  class Scheduler {
    /** The configured timezone; `None` until `Configure` is called. */
    var timezone: Option<string>
    /** Registered jobs, in registration order. */
    var jobs: seq<Job>
    /** Whether `start` has been called. */
    var running: bool

    /** A fresh scheduler: default timezone, no jobs, not started. */
    constructor ()
      ensures timezone == None && jobs == [] && !running
    {
      timezone := None;
      jobs := [];
      running := false;
    }

    /** `scheduler.configure(timezone=tz)`. */
    method Configure(tz: string)
      modifies this
      ensures timezone == Some(tz)
      ensures jobs == old(jobs) && running == old(running)
    {
      timezone := Some(tz);
    }

    /** `scheduler.add_job(...)`: the job is appended; nothing else changes. */
    method AddJob(job: Job)
      modifies this
      ensures jobs == old(jobs) + [job]
      ensures timezone == old(timezone) && running == old(running)
    {
      jobs := jobs + [job];
    }

    /** `scheduler.start()`: marks the scheduler started; the timetable is unchanged. */
    method Start()
      modifies this
      ensures running
      ensures jobs == old(jobs) && timezone == old(timezone)
    {
      running := true;
    }
  }

  /**
    `get_scheduler`: a new scheduler with the effective timezone, the probe job
    (when enabled) and then one one-shot job per plan.
   */
  method GetScheduler(pref: Preference, d: Defaults, plans: seq<ExchangePlan>) returns (s: Scheduler)
    ensures fresh(s)
    ensures s.timezone == Some(EffectiveTimezone(pref, d))
    ensures s.jobs == Timetable(pref, d, plans)
    ensures !s.running
  {
    s := new Scheduler();
    s.Configure(EffectiveTimezone(pref, d));
    if pref.enableConnectionTest {
      var interval := EffectiveInterval(pref, d);
      s.AddJob(IntervalJob(interval));
    }
    var i := 0;
    while i < |plans|
      invariant 0 <= i <= |plans|
      invariant s.jobs == ProbeJobs(pref, d) + DateJobs(plans[..i])
      invariant s.timezone == Some(EffectiveTimezone(pref, d)) && !s.running
    {
      var plan := plans[i];
      s.AddJob(DateJob(plan, plan.good.time));
      assert plans[..i + 1][..i] == plans[..i];
      i := i + 1;
    }
    assert plans[..|plans|] == plans;
  }

  /**
    `exchange_mode_simple` up to `run_forever`: with no plans it returns
    without building a scheduler (`null`); otherwise it builds the timetable
    and starts the scheduler.
   */
  method ExchangeModeSimple(pref: Preference, d: Defaults, plans: seq<ExchangePlan>) returns (s: Scheduler?)
    ensures s == null <==> plans == []
    ensures s != null ==> fresh(s) && s.running
    ensures s != null ==> s.jobs == Timetable(pref, d, plans)
    ensures s != null ==> s.timezone == Some(EffectiveTimezone(pref, d))
  {
    if plans == [] {
      return null;
    }
    s := GetScheduler(pref, d, plans);
    s.Start();
  }
}
