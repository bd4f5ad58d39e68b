/** The outside world as far as the orchestrator changes it, and what each call does to it. */
module Providers {
  import opened Domain
  import opened Drives

  datatype Record = Record(state: ResourceState, inProgress: bool, desired: Payload)

  /** Tickets by the key they were ordered with, how tickets were closed, resource records by place,
      the keys of created records, engine runs and legacy submissions by key. */
  datatype World = World(
    tickets: set<Key>,
    closed: map<TicketRef, TicketOutcome>,
    records: map<Place, Record>,
    created: set<Key>,
    engineRuns: set<Key>,
    submitted: set<Key>)

  function Written(r: Record, f: Fields): Record {
    Record(f.state, f.inProgress, f.desired.GetOr(r.desired))
  }

  /** What a call does when it is applied. Orders, creations, triggers and submissions are deduplicated
      on their key; a write may move a record to another vendor id; removing what is gone does nothing. */
  function Effect(w: World, c: Call): World {
    match c
    case OpenTicket(_, _, key) => w.(tickets := w.tickets + {key})
    case CloseTicketAs(t, outcome) => w.(closed := w.closed[t := outcome])
    case CreateRecord(p, f, key) =>
      if key in w.created then w
      else w.(created := w.created + {key},
              records := w.records[p := Record(f.state, f.inProgress, f.desired.GetOr(Payload("")))])
    case UpdateRecord(p, f) =>
      if p !in w.records then w
      else
        var r := Written(w.records[p], f);
        (match f.rekeyTo
         case None => w.(records := w.records[p := r])
         case Some(v) => w.(records := (w.records - {p})[p.(vendorId := v) := r]))
    case DeleteRecord(p) => w.(records := w.records - {p})
    case TriggerEngine(_, key) => w.(engineRuns := w.engineRuns + {key})
    case SubmitRequest(_, key) => w.(submitted := w.submitted + {key})
    case _ => w
  }

  /** A call took effect unless it raised without being applied. */
  predicate Took(a: Answer) {
    a.Raised? ==> a.applied
  }

  function Next(w: World, e: Event): World {
    if Took(e.answer) then Effect(w, e.call) else w
  }

  /** An update is acknowledged only for a record that is there, and told "not found" only when it is
      not. */
  predicate Truthful(w: World, e: Event) {
    e.call.UpdateRecord? ==>
      (e.answer.Acknowledged? ==> e.call.place in w.records)
      && (e.answer.Raised? && e.answer.notFound ==> e.call.place !in w.records)
  }

  /** The world after these events. */
  function Onward(w: World, es: seq<Event>): World
    decreases |es|
  {
    if es == [] then w else Onward(Next(w, es[0]), es[1..])
  }
}
