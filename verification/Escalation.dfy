/** What an escalation does under any pattern of failing provider calls. */
module Escalation {
  import opened Domain
  import opened Drives

  // --- What was asked of whom ---

  predicate OnResource(c: Call) {
    c.CreateRecord? || c.UpdateRecord? || c.DeleteRecord?
  }

  function ResourceCalls(es: seq<Event>): seq<Call> {
    if es == [] then []
    else (if OnResource(es[0].call) then [es[0].call] else []) + ResourceCalls(es[1..])
  }

  /** The events that ask for a ticket to be closed. */
  function Closings(es: seq<Event>): seq<Event> {
    if es == [] then [] else (if es[0].call.CloseTicketAs? then [es[0]] else []) + Closings(es[1..])
  }

  function Pages(es: seq<Event>): seq<Event> {
    if es == [] then [] else (if es[0].call.OpenIncident? then [es[0]] else []) + Pages(es[1..])
  }

  function PagesOf(e: Event): seq<Event> {
    if e.call.OpenIncident? then [e] else []
  }

  lemma {:induction false} PagesJoin(a: seq<Event>, b: seq<Event>)
    ensures Pages(a + b) == Pages(a) + Pages(b)
  {
    hide PagesOf;
    if a == [] {
      assert a + b == b;
    } else {
      PagesStart(a);
      PagesStart(a + b);
      assert (a + b)[1..] == a[1..] + b;
      PagesJoin(a[1..], b);
      Regrouped(PagesOf(a[0]), Pages(a[1..]), Pages(b));
    }
  }

  lemma PagesStart(es: seq<Event>)
    requires es != []
    ensures Pages(es) == PagesOf(es[0]) + Pages(es[1..])
  {
  }

  lemma Regrouped(a: seq<Event>, b: seq<Event>, c: seq<Event>)
    ensures (a + b) + c == a + (b + c)
  {
  }

  lemma PagesOfOne(e: Event)
    ensures Pages([e]) == PagesOf(e)
  {
    assert [e][1..] == [];
  }

  lemma {:induction false} QuietPages(es: seq<Event>)
    requires forall i :: 0 <= i < |es| ==> !es[i].call.OpenIncident?
    ensures Pages(es) == []
  {
    if es != [] {
      QuietPages(es[1..]);
    }
  }

  /** The one call that lets go of a resource. */
  function ReleaseCall(run: Run, r: ResourceSpec): Call {
    if run.state.request.operation.Create? then DeleteRecord(PlaceOf(r))
    else UpdateRecord(PlaceOf(r), Fields(Ready, false, None, None))
  }

  predicate NoSaves(es: seq<Event>) {
    es == [] || (!es[0].call.SaveRun? && NoSaves(es[1..]))
  }

  /** A trace through the escalator, up to the save behind it. */
  predicate Through(d: Drive, es: seq<Event>) {
    IsTrace(d, es) && After(d, es).pc.Saving? && NoSaves(es)
  }

  // --- What a good escalation looks like from outside ---

  /** The resource side: let go of exactly what the run left in flight, with one call. */
  predicate LetsGo(run: Run, es: seq<Event>) {
    ResourceCalls(es)
    == if run.state.resourceConfigured && !run.state.resourceFinalized && run.state.resource.Some? then
         [ReleaseCall(run, run.state.resource.value)]
       else []
  }

  /** The requester's side: the ticket, if there is one, is asked once to close as unsuccessful, and
      counts as closed exactly when that call succeeded. */
  predicate RefusesTicket(st: RunState, es: seq<Event>, end: RunState) {
    match st.ticket
    case None => Closings(es) == [] && end == st
    case Some(t) =>
      |Closings(es)| == 1 && Closings(es)[0].call == CloseTicketAs(t, Unsuccessful)
      && end == st.(ticketClosed := st.ticketClosed || Closings(es)[0].answer.Acknowledged?)
  }

  // --- Piece by piece ---

  lemma NothingLeft(d: Drive, es: seq<Event>)
    requires d.pc.Saving? && Through(d, es)
    ensures es == []
  {
  }

  lemma ReleaseThrough(d: Drive, quiet: bool, es: seq<Event>)
    requires Through(Release(d, quiet), es)
    ensures LetsGo(d.run, es) && Closings(es) == [] && Pages(es) == []
    ensures After(Release(d, quiet), es).run == d.run
  {
    var d' := Release(d, quiet);
    if d'.pc.Saving? {
      NothingLeft(d', es);
    } else {
      assert es != [];
      NothingLeft(Resume(d', es[0].answer), es[1..]);
    }
  }

  lemma RefuseThrough(d: Drive, es: seq<Event>)
    requires Through(Refuse(d), es)
    ensures LetsGo(d.run, es) && Pages(es) == []
    ensures RefusesTicket(d.run.state, es, After(Refuse(d), es).run.state)
  {
    hide Release, LetsGo;
    match d.run.state.ticket
    case None => ReleaseThrough(d, false, es);
    case Some(t) =>
      var d' := Refuse(d);
      assert es != [];
      var n := Noted(d', es[0].answer);
      ReleaseThrough(n, false, es[1..]);
      LetsGoLater(d.run, es);
      LetsGoSame(d.run, n.run, es[1..]);
  }

  lemma LetsGoLater(run: Run, es: seq<Event>)
    requires es != [] && !OnResource(es[0].call)
    ensures LetsGo(run, es) == LetsGo(run, es[1..])
  {
  }

  lemma AnnotateThrough(d: Drive, es: seq<Event>)
    requires d.pc.Annotating? && Through(d, es)
    ensures LetsGo(d.run, es) && Pages(es) == [] && Closings(es) == [] && After(d, es).run == d.run
  {
    hide Release, LetsGo;
    assert es != [];
    ReleaseThrough(d, d.pc.quiet, es[1..]);
    LetsGoLater(d.run, es);
  }

  lemma FileThrough(d: Drive, es: seq<Event>)
    requires d.pc.Filing? && Through(d, es)
    ensures LetsGo(d.run, es) && Pages(es) == []
    ensures RefusesTicket(d.run.state, es, After(d, es).run.state)
  {
    hide Refuse, LetsGo, RefusesTicket;
    assert es != [];
    RefuseThrough(d, es[1..]);
    FirstIsElsewhere(d.run, es, After(d, es).run.state);
  }

  /** A first event that is neither a resource call nor a ticket close changes neither side. */
  lemma FirstIsElsewhere(run: Run, es: seq<Event>, end: RunState)
    requires es != [] && !OnResource(es[0].call) && !es[0].call.CloseTicketAs?
    ensures LetsGo(run, es) == LetsGo(run, es[1..])
    ensures RefusesTicket(run.state, es, end) == RefusesTicket(run.state, es[1..], end)
  {
  }

  lemma DocumentThrough(d: Drive, es: seq<Event>)
    requires d.pc.Documenting? && Through(d, es)
    ensures LetsGo(d.run, es)
    ensures |Pages(es)| == 1 && Pages(es)[0].call == OpenIncident(d.cfg.defaultTeam)
    ensures RefusesTicket(d.run.state, es, After(d, es).run.state)
  {
    hide Refuse, LetsGo, RefusesTicket;
    assert es != [];
    if es[0].answer.Raised? {
      RefuseThrough(d, es[1..]);
    } else {
      FileThrough(Resume(d, es[0].answer), es[1..]);
    }
    FirstIsElsewhere(d.run, es, After(d, es).run.state);
  }

  // --- The whole of it ---

  /** The engine run's failure names a team. */
  predicate NamesTeam(run: Run, group: string) {
    group != "" && run.state.engineFailure.Some? && run.state.engineFailure.value.responsibleGroup == Some(group)
  }

  /** Whom an incident goes to: for a classified failure the team the engine's failure names, if it names one; in every
      other case the default team. */
  ghost predicate AsksTeam(run: Run, e: Error, defaultTeam: string, group: string) {
    if e.StepFailure? && (exists g :: NamesTeam(run, g)) then NamesTeam(run, group) else group == defaultTeam
  }

  /** Which incidents an escalation opens: the responsible team's, where its kind asks for one; and
      when that was opened for another team's classified failure, a record for the default team. */
  ghost predicate PagesRight(d: Drive, e: Error, es: seq<Event>) {
    var pages := Pages(es);
    if e == StepFailure(Validation) || e == StepFailure(InfraPrecheck) then pages == []
    else
      pages != [] && pages[0] == es[0] && pages[0].call.OpenIncident?
      && AsksTeam(d.run, e, d.cfg.defaultTeam, pages[0].call.group)
      && if e.StepFailure? && pages[0].answer.Ticket? && pages[0].call.group != d.cfg.defaultTeam
         then |pages| == 2 && pages[1].call == OpenIncident(d.cfg.defaultTeam)
         else |pages| == 1
  }

  /** Whether the incident the kind asks for was opened, if it asks for one. */
  predicate MainIncidentOpened(e: Error, es: seq<Event>) {
    e == StepFailure(Validation) || e == StepFailure(InfraPrecheck) || (Pages(es) != [] && Pages(es)[0].answer.Ticket?)
  }

  /** The run's own copy with the main incident's id on it. */
  function WithIncident(st: RunState, es: seq<Event>): RunState {
    if Pages(es) != [] && Pages(es)[0].answer.Ticket? then
      st.(incidentId := Some(Pages(es)[0].answer.ref.ticketId))
    else st
  }

  /** What an escalation comes to: the resource's side, the incidents, and the requester's ticket. */
  ghost predicate Isolates(d: Drive, e: Error, es: seq<Event>, end: RunState) {
    && LetsGo(d.run, es)
    && PagesRight(d, e, es)
    && if e.StepFailure? && MainIncidentOpened(e, es)
       then RefusesTicket(WithIncident(d.run.state, es), es, end)
       else Closings(es) == [] && end == WithIncident(d.run.state, es)
  }

  /** For every pattern of failing provider calls: the resource is let go exactly when the run had
      configured and not finalized it, whatever the ticket side did; a classified failure's ticket is
      asked to close exactly when it exists and the main incident was opened, whatever became of the
      record for the default team, and counts as closed exactly when that call succeeded; an
      unclassified failure leaves the ticket open; the incident the run names is the responsible
      team's. Nothing else of the run changes. */
  lemma EscalationIsolatesFaults(d: Drive, e: Error, quiet: bool, es: seq<Event>)
    requires Through(Escalate(d, e, quiet), es)
    ensures Isolates(d, e, es, After(Escalate(d, e, quiet), es).run.state)
  {
    hide Refuse, Release, LetsGo, RefusesTicket, ResponsibleGroup;
    var d0 := d.(escalations := d.escalations + 1);
    if e.StepFailure? && !PolicyFor(e.kind).openIncident {
      RefuseThrough(d0, es);
    } else {
      assert es != [];
      PagedThrough(d, e, quiet, es);
    }
  }

  /** The team the machine asks is the team that is named, or else the default. */
  lemma TeamAsked(d: Drive, e: Error)
    ensures AsksTeam(d.run, e, d.cfg.defaultTeam, PagedGroup(d, e))
  {
    var failure := d.run.state.engineFailure;
    if failure.Some? && failure.value.responsibleGroup.Some? && failure.value.responsibleGroup.value != "" {
      assert NamesTeam(d.run, failure.value.responsibleGroup.value);
    }
  }

  lemma PagedThrough(d: Drive, e: Error, quiet: bool, es: seq<Event>)
    requires Through(Escalate(d, e, quiet), es) && es != []
    requires e.StepFailure? ==> PolicyFor(e.kind).openIncident
    ensures Isolates(d, e, es, After(Escalate(d, e, quiet), es).run.state)
  {
    hide Isolates, Resume, NextCall;
    if e.StepFailure? && !es[0].answer.Raised? {
      PagedClassified(d, e, quiet, es);
    } else if es[0].answer.Raised? || d.run.state.ticket.None? {
      PagedOnly(d, e, quiet, es);
    } else {
      PagedAndNoted(d, e, quiet, es);
    }
  }

  /** The incident could not be opened, or there is no ticket to note it on. */
  lemma PagedOnly(d: Drive, e: Error, quiet: bool, es: seq<Event>)
    requires Through(Escalate(d, e, quiet), es) && es != []
    requires e.StepFailure? ==> PolicyFor(e.kind).openIncident && es[0].answer.Raised?
    requires es[0].answer.Raised? || d.run.state.ticket.None?
    ensures Isolates(d, e, es, After(Escalate(d, e, quiet), es).run.state)
  {
    hide Refuse, Release, LetsGo, RefusesTicket, ResponsibleGroup, AsksTeam;
    TeamAsked(d, e);
    var p := Escalate(d, e, quiet);
    var n := Noted(p, es[0].answer);
    FirstIsElsewhere(n.run, es, After(p, es).run.state);
    LetsGoSame(d.run, n.run, es);
    GroupStays(d, p);
    ReleaseThrough(n, quiet, es[1..]);
  }

  lemma PagedAndNoted(d: Drive, e: Error, quiet: bool, es: seq<Event>)
    requires Through(Escalate(d, e, quiet), es) && es != [] && !es[0].answer.Raised?
    requires !e.StepFailure? && d.run.state.ticket.Some?
    ensures Isolates(d, e, es, After(Escalate(d, e, quiet), es).run.state)
  {
    hide Refuse, Release, LetsGo, RefusesTicket, ResponsibleGroup, AsksTeam;
    TeamAsked(d, e);
    var p := Escalate(d, e, quiet);
    var d1 := Resume(p, es[0].answer);
    FirstIsElsewhere(d1.run, es, After(p, es).run.state);
    LetsGoSame(d.run, d1.run, es);
    GroupStays(d, p);
    AnnotateThrough(d1, es[1..]);
  }

  lemma PagedClassified(d: Drive, e: Error, quiet: bool, es: seq<Event>)
    requires Through(Escalate(d, e, quiet), es) && es != [] && !es[0].answer.Raised?
    requires e.StepFailure? && PolicyFor(e.kind).openIncident
    ensures Isolates(d, e, es, After(Escalate(d, e, quiet), es).run.state)
  {
    hide Refuse, Release, LetsGo, RefusesTicket, ResponsibleGroup, AsksTeam;
    TeamAsked(d, e);
    var p := Escalate(d, e, quiet);
    var n := Noted(p, es[0].answer);
    FirstIsElsewhere(n.run, es, After(p, es).run.state);
    LetsGoSame(d.run, n.run, es);
    GroupStays(d, p);
    if ResponsibleGroup(p) == d.cfg.defaultTeam {
      RefuseThrough(n, es[1..]);
    } else {
      DocumentThrough(Resume(p, es[0].answer), es[1..]);
    }
  }

  lemma GroupStays(d: Drive, p: Drive)
    requires p.run == d.run && p.cfg == d.cfg
    ensures ResponsibleGroup(p) == ResponsibleGroup(d)
  {
  }

  lemma LetsGoSame(a: Run, b: Run, es: seq<Event>)
    requires ResourceInFlight(a.state) == ResourceInFlight(b.state)
    requires a.state.request.operation == b.state.request.operation
    ensures LetsGo(a, es) == LetsGo(b, es)
  {
  }

  // --- What is written on tickets and incidents ---

  /** The notes on tickets and the closings of incidents. */
  function Writings(es: seq<Event>): seq<Call> {
    if es == [] then []
    else (if es[0].call.AnnotateTicket? || es[0].call.CloseIncident? then [es[0].call] else []) + Writings(es[1..])
  }

  lemma ReleaseWrites(d: Drive, quiet: bool, es: seq<Event>)
    requires Through(Release(d, quiet), es)
    ensures Writings(es) == []
  {
    var d' := Release(d, quiet);
    if d'.pc.Saving? {
      NothingLeft(d', es);
    } else {
      NothingLeft(Resume(d', es[0].answer), es[1..]);
    }
  }

  lemma RefuseWrites(d: Drive, es: seq<Event>)
    requires Through(Refuse(d), es)
    ensures Writings(es) == []
  {
    hide Release;
    match d.run.state.ticket
    case None => ReleaseWrites(d, false, es);
    case Some(t) => ReleaseWrites(Noted(Refuse(d), es[0].answer), false, es[1..]);
  }

  lemma FileWrites(d: Drive, es: seq<Event>)
    requires d.pc.Filing? && Through(d, es)
    ensures Writings(es) == [CloseIncident(d.pc.incident, Documentation)] && Pages(es) == []
  {
    hide Refuse, LetsGo, RefusesTicket;
    assert es != [];
    RefuseWrites(d, es[1..]);
    FileThrough(d, es);
  }

  lemma DocumentWrites(d: Drive, es: seq<Event>)
    requires d.pc.Documenting? && Through(d, es)
    ensures es != [] && Writings(es) == (if es[0].answer.Ticket? then [CloseIncident(es[0].answer.ref, Documentation)] else [])
    ensures Pages(es) == [es[0]]
  {
    hide Refuse, LetsGo, RefusesTicket;
    assert es != [];
    if es[0].answer.Raised? {
      RefuseWrites(d, es[1..]);
      RefuseThrough(d, es[1..]);
    } else {
      FileWrites(Resume(d, es[0].answer), es[1..]);
    }
  }

  lemma AnnotateWrites(d: Drive, es: seq<Event>)
    requires d.pc.Annotating? && Through(d, es)
    ensures Writings(es) == [AnnotateTicket(d.pc.ticket, d.pc.incidentId)]
  {
    hide Release;
    ReleaseWrites(d, d.pc.quiet, es[1..]);
  }

  /** What an escalation writes down: the record for the default team is closed as documentation as soon as it is open;
      after an unclassified failure the run's ticket, if there is one, is told of the incident that was opened. Nothing
      else is written on any ticket or incident. */
  predicate WritesRight(run: Run, e: Error, es: seq<Event>) {
    var pages := Pages(es);
    Writings(es)
    == if e.StepFailure? then
         if |pages| == 2 && pages[1].answer.Ticket? then [CloseIncident(pages[1].answer.ref, Documentation)] else []
       else if pages != [] && pages[0].answer.Ticket? && run.state.ticket.Some? then
         [AnnotateTicket(run.state.ticket.value, pages[0].answer.ref.ticketId)]
       else []
  }

  lemma EscalationWritesDown(d: Drive, e: Error, quiet: bool, es: seq<Event>)
    requires Through(Escalate(d, e, quiet), es)
    ensures WritesRight(d.run, e, es)
  {
    hide Refuse, Release, ResponsibleGroup, LetsGo, RefusesTicket;
    var d0 := d.(escalations := d.escalations + 1);
    if e.StepFailure? && !PolicyFor(e.kind).openIncident {
      RefuseWrites(d0, es);
      RefuseThrough(d0, es);
    } else {
      assert es != [];
      PageWrites(d, e, quiet, es);
    }
  }

  lemma PageWrites(d: Drive, e: Error, quiet: bool, es: seq<Event>)
    requires Through(Escalate(d, e, quiet), es) && es != []
    requires e.StepFailure? ==> PolicyFor(e.kind).openIncident
    ensures WritesRight(d.run, e, es)
  {
    hide WritesRight, Resume, NextCall;
    if es[0].answer.Raised? || (!e.StepFailure? && d.run.state.ticket.None?) {
      PageWritesNothing(d, e, quiet, es);
    } else if e.StepFailure? {
      PageWritesClassified(d, e, quiet, es);
    } else {
      PageWritesNote(d, e, quiet, es);
    }
  }

  lemma PageWritesNothing(d: Drive, e: Error, quiet: bool, es: seq<Event>)
    requires Through(Escalate(d, e, quiet), es) && es != []
    requires e.StepFailure? ==> PolicyFor(e.kind).openIncident
    requires es[0].answer.Raised? || (!e.StepFailure? && d.run.state.ticket.None?)
    ensures WritesRight(d.run, e, es)
  {
    hide Refuse, Release, ResponsibleGroup, LetsGo, RefusesTicket;
    var n := Noted(Escalate(d, e, quiet), es[0].answer);
    ReleaseWrites(n, quiet, es[1..]);
    ReleaseThrough(n, quiet, es[1..]);
  }

  lemma PageWritesNote(d: Drive, e: Error, quiet: bool, es: seq<Event>)
    requires Through(Escalate(d, e, quiet), es) && es != [] && !es[0].answer.Raised?
    requires !e.StepFailure? && d.run.state.ticket.Some?
    ensures WritesRight(d.run, e, es)
  {
    hide Refuse, Release, ResponsibleGroup, LetsGo, RefusesTicket;
    var d1 := Resume(Escalate(d, e, quiet), es[0].answer);
    AnnotateWrites(d1, es[1..]);
    AnnotateThrough(d1, es[1..]);
  }

  lemma PageWritesClassified(d: Drive, e: Error, quiet: bool, es: seq<Event>)
    requires Through(Escalate(d, e, quiet), es) && es != [] && !es[0].answer.Raised?
    requires e.StepFailure? && PolicyFor(e.kind).openIncident
    ensures WritesRight(d.run, e, es)
  {
    hide Refuse, Release, ResponsibleGroup, LetsGo, RefusesTicket;
    var p := Escalate(d, e, quiet);
    if ResponsibleGroup(p) == d.cfg.defaultTeam {
      var n := Noted(p, es[0].answer);
      RefuseWrites(n, es[1..]);
      RefuseThrough(n, es[1..]);
    } else {
      DocumentWrites(Resume(p, es[0].answer), es[1..]);
    }
  }

  /** A rejected run opens no incident and leaves its ticket alone; it lets go of its resource exactly as a
      failed one does. */
  lemma RejectionOnlyLetsGo(d: Drive, s: StepName, es: seq<Event>)
    requires Through(Reject(d, s), es)
    ensures LetsGo(d.run, es) && Pages(es) == [] && Closings(es) == []
    ensures var end := After(Reject(d, s), es).run;
            end.status.Rejected? && end.scheduledAt == None && end.state.incidentId == d.run.state.incidentId
            && end.state.ticketClosed == d.run.state.ticketClosed
  {
    hide Release, LetsGo;
    var ended := Ended(d, Rejected, WithError(d.run.state, s, Denial));
    ReleaseThrough(ended, false, es);
    LetsGoSame(ended.run, d.run, es);
  }

  /** What a failed attempt costs, by its kind: a refused request is over at once and pages nobody; anything
      else is tried again while the budget lasts, and then pages the team that answers for it. */
  lemma FailureCosts(d: Drive, s: StepName, e: Error)
    requires d.run.status.Running?
    ensures var refused := e == StepFailure(Validation) || e == StepFailure(InfraPrecheck);
            var d' := Fail(d, s, e);
            && (d'.run.status.Running? <==> !refused && Attempts(d.run.state.books, s) < d.run.maxRetries)
            && (d'.run.status.Running? ==> d'.pc.BackingOff? && d'.escalations == d.escalations)
            && (!d'.run.status.Running? ==> d'.run.status.Failed? && d'.escalations == d.escalations + 1
                                            && d'.run.state.books.errors == d.run.state.books.errors[s := e])
            && (d'.pc.Paging? <==> !refused && Attempts(d.run.state.books, s) >= d.run.maxRetries)
  {
  }
}
