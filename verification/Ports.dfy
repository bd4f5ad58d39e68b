/** The outside as one drive meets it: the clock, the random source, the providers and the run store.
    Any call may get any answer it can get; what is checked here is which calls a drive makes. */
module OutsidePorts {
  import opened Domain
  import opened Drives

  /** What loading a run can give. */
  datatype Loaded = LoadRaised | NoRow | Row(run: Run)

  function SomeAnswer(c: Call): (a: Answer)
    ensures Fits(c, a)
  {
    match c
    case ReadClock => Clock(0.0)
    case DrawJitter => Jitter(1.0)
    case SaveRun(_) => SaveStale
    case _ => Raised(false, false)
  }

  /** `drive` is where the machine stands after the answers in `log`; a caller may only make the call
      the machine makes next. `loads` are the runs loaded so far, each the start of a drive. */
  class Ports {
    ghost var start: Drive
    ghost var log: seq<Event>
    ghost var drive: Drive
    ghost var loads: seq<RunId>

    ghost predicate Valid()
      reads this
    {
      IsTrace(start, log) && After(start, log) == drive && drive.cfg == start.cfg
    }

    /** Before anything is loaded. */
    constructor (ghost d: Drive)
      requires d.pc.Finished?
      ensures Valid() && log == [] && drive == d && loads == []
    {
      start, log, drive, loads := d, [], d, [];
    }

    method Ask(c: Call) returns (a: Answer)
      requires Valid() && !drive.pc.Finished? && NextCall(drive) == c
      modifies this
      ensures Valid() && start == old(start) && loads == old(loads) && log == old(log) + [Event(c, a)]
      ensures Fits(c, a) && drive == Resume(old(drive), a)
    {
      a := *;
      if !Fits(c, a) {
        a := SomeAnswer(c);
      }
      TraceExtends(start, log, Event(c, a));
      ResumeKeepsCfg(drive, a);
      log, drive := log + [Event(c, a)], Resume(drive, a);
    }

    /** The run store's `get`: whatever row is stored now, and the machine that drives it. A run is loaded only
        once the one before it has been driven to its end. */
    method Load(id: RunId, cfg: Settings) returns (loaded: Loaded)
      requires Valid() && drive.pc.Finished?
      modifies this
      ensures Valid() && log == [] && drive == start && loads == old(loads) + [id]
      ensures if loaded.Row? then loaded.run.id == id && start == Start(cfg, loaded.run) else drive.pc.Finished?
    {
      loaded := *;
      if loaded.Row? && loaded.run.id != id {
        loaded := NoRow;
      }
      start := if loaded.Row? then Start(cfg, loaded.run) else drive;
      log, drive, loads := [], start, loads + [id];
    }
  }
}
