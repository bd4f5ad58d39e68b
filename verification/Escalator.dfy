/** What happens when a run ends badly: incidents, the requester's ticket, and letting go of the
    resource. Nothing here raises: every provider failure is swallowed where it happens. */
module Escalator {
  import opened Domain
  import opened Drives
  import opened WorkflowRuns
  import opened OutsidePorts

  class FailureEscalator {
    const ports: Ports
    const defaultTeam: string

    constructor (ports: Ports, defaultTeam: string)
      ensures this.ports == ports && this.defaultTeam == defaultTeam
    {
      this.ports, this.defaultTeam := ports, defaultTeam;
    }

    /** The machine has gone from `d`, which holds the run as it is written, to `next`. */
    ghost predicate At(d: Drive, next: Drive, run: WorkflowRun)
      reads ports, run
    {
      ports.Valid() && ports.drive == next && d.run == run.Value() && d.cfg.defaultTeam == defaultTeam
    }

    /** The machine is about to save the run as it is written. */
    ghost predicate Done(run: WorkflowRun, quiet: bool)
      reads ports, run
    {
      ports.Valid() && ports.drive.pc == Saving(quiet) && ports.drive.run == run.Value()
    }

    /** Escalate, then let go of the resource; each side swallows its own failures. */
    method Escalate(run: WorkflowRun, error: Error, quiet: bool, ghost d: Drive)
      requires quiet ==> !error.StepFailure?
      requires At(d, Drives.Escalate(d, error, quiet), run)
      modifies run, ports
      ensures Done(run, quiet) && ports.start == old(ports.start) && ports.loads == old(ports.loads)
    {
      hide Release, Refuse, ResponsibleGroup, IsTrace;
      ghost var d' := d.(escalations := d.escalations + 1);
      if error.StepFailure? {
        d' := EscalateByPolicy(run, error.kind, d');
      } else {
        d' := EscalateUnclassified(run, error, quiet, d');
      }
      ReleaseResource(run, quiet, d');
    }

    /** A rejected run escalates nothing; it lets go of its resource all the same. */
    method Reject(run: WorkflowRun, ghost d: Drive)
      requires At(d, Release(d, false), run)
      modifies run, ports
      ensures Done(run, false) && ports.start == old(ports.start) && ports.loads == old(ports.loads)
    {
      ReleaseResource(run, false, d);
    }

    method ReleaseResource(run: WorkflowRun, quiet: bool, ghost d: Drive)
      requires At(d, Release(d, quiet), run)
      modifies run, ports
      ensures Done(run, quiet) && ports.start == old(ports.start) && ports.loads == old(ports.loads)
    {
      hide IsTrace;
      if run.resource.None? || !run.resourceConfigured || run.resourceFinalized {
        return;
      }
      var place := PlaceOf(run.resource.value);
      if run.request.operation.Create? {
        var _ := ports.Ask(DeleteRecord(place));
      } else {
        var _ := ports.Ask(UpdateRecord(place, StateFields(Ready)));
      }
    }

    /** A classified failure: the incident its policy asks for, then the requester's ticket. */
    method EscalateByPolicy(run: WorkflowRun, kind: FailureKind, ghost d: Drive) returns (ghost end: Drive)
      requires At(d, if PolicyFor(kind).openIncident then d.(pc := Paging(StepFailure(kind), false)) else Refuse(d), run)
      modifies run, ports
      ensures At(end, Release(end, false), run) && ports.start == old(ports.start) && ports.loads == old(ports.loads)
    {
      hide Release, Refuse, IsTrace;
      end := d;
      if PolicyFor(kind).openIncident {
        var paged;
        paged, end := OpenMainIncident(run, kind, d);
        if !paged {
          return;
        }
      }
      end := CloseUnsuccessful(run, end);
    }

    /** The responsible team's incident, and the default team's record of it. */
    method OpenMainIncident(run: WorkflowRun, kind: FailureKind, ghost d: Drive) returns (paged: bool, ghost end: Drive)
      requires At(d, d.(pc := Paging(StepFailure(kind), false)), run)
      modifies run, ports
      ensures At(end, if paged then Refuse(end) else Release(end, false), run)
      ensures ports.start == old(ports.start) && ports.loads == old(ports.loads)
    {
      hide Release, Refuse, IsTrace, ResponsibleGroup;
      var group := Responsible(run);
      var a := ports.Ask(OpenIncident(group));
      end := Noted(d.(pc := Paging(StepFailure(kind), false)), a);
      paged := !a.Raised?;
      if paged {
        run.incidentId := Some(a.ref.ticketId);
        end := LogDocumentationIncident(run, group, end);
      }
    }

    /** The team the engine named, if it named one. */
    method Responsible(run: WorkflowRun) returns (group: string)
      ensures forall d: Drive :: d.run == run.Value() && d.cfg.defaultTeam == defaultTeam ==> group == ResponsibleGroup(d)
    {
      group := defaultTeam;
      if run.engineFailure.Some? && run.engineFailure.value.responsibleGroup.Some?
         && run.engineFailure.value.responsibleGroup.value != ""
      {
        group := run.engineFailure.value.responsibleGroup.value;
      }
    }

    /** The default team's own record of a failure another team answers for, closed at once. */
    method LogDocumentationIncident(run: WorkflowRun, group: string, ghost d: Drive) returns (ghost end: Drive)
      requires At(d, if group == defaultTeam then Refuse(d) else d.(pc := Documenting), run)
      modifies ports
      ensures At(end, Refuse(end), run) && ports.start == old(ports.start) && ports.loads == old(ports.loads)
    {
      hide Refuse, IsTrace, ResponsibleGroup;
      end := d;
      if group == defaultTeam {
        return;
      }
      var doc := ports.Ask(OpenIncident(defaultTeam));
      end := d.(pc := Documenting);
      if doc.Raised? {
        return;
      }
      end := d.(pc := Filing(doc.ref));
      var _ := ports.Ask(CloseIncident(doc.ref, Documentation));
    }

    method CloseUnsuccessful(run: WorkflowRun, ghost d: Drive) returns (ghost end: Drive)
      requires At(d, Refuse(d), run)
      modifies run, ports
      ensures At(end, Release(end, false), run) && ports.start == old(ports.start) && ports.loads == old(ports.loads)
    {
      hide Release, IsTrace;
      end := d;
      if run.ticket.None? {
        return;
      }
      var a := ports.Ask(CloseTicketAs(run.ticket.value, Unsuccessful));
      end := Noted(d.(pc := Refusing(run.ticket.value)), a);
      if a.Acknowledged? {
        run.ticketClosed := true;
      }
    }

    /** Anything else: an incident to the default team and a note on the ticket, which stays open. */
    method EscalateUnclassified(run: WorkflowRun, error: Error, quiet: bool, ghost d: Drive) returns (ghost end: Drive)
      requires !error.StepFailure? && At(d, d.(pc := Paging(error, quiet)), run)
      modifies run, ports
      ensures At(end, Release(end, quiet), run) && ports.start == old(ports.start) && ports.loads == old(ports.loads)
    {
      hide Release, IsTrace, ResponsibleGroup;
      var a := ports.Ask(OpenIncident(defaultTeam));
      end := Noted(d.(pc := Paging(error, quiet)), a);
      if a.Raised? {
        return;
      }
      run.incidentId := Some(a.ref.ticketId);
      end := NoteOnTicket(run, a.ref.ticketId, quiet, end);
    }

    method NoteOnTicket(run: WorkflowRun, incidentId: string, quiet: bool, ghost d: Drive) returns (ghost end: Drive)
      requires At(d, if run.ticket.Some? then d.(pc := Annotating(run.ticket.value, incidentId,
            quiet)) else Release(d, quiet), run)
      modifies ports
      ensures At(end, Release(end, quiet), run) && ports.start == old(ports.start) && ports.loads == old(ports.loads)
    {
      hide Release, IsTrace;
      end := d;
      if run.ticket.Some? {
        end := d.(pc := Annotating(run.ticket.value, incidentId, quiet));
        var _ := ports.Ask(AnnotateTicket(run.ticket.value, incidentId));
      }
    }
  }
}
