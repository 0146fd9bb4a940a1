/** Calendar events: the `events` list, the add-event form with its modal,
    and the guarded append performed when the form is submitted. */
module Events {

  /** A calendar entry; `id` is the clock value taken when it was added. */
  datatype Event = Event(id: int, title: string, date: string, time: string)

  /** The form's three inputs, as typed (no trimming, no format check). */
  datatype EventForm = EventForm(title: string, date: string, time: string)

  /** The form after a reset: three empty strings. */
  const EmptyForm: EventForm := EventForm("", "", "")

  /** The presence check guarding the append: each field must be a
      non-empty string (a string is truthy exactly when it is non-empty). */
  predicate Filled(form: EventForm) {
    form.title != "" && form.date != "" && form.time != ""
  }

  /** The event built from the form by spreading it and adding the id. */
  function FromForm(form: EventForm, freshId: int): (e: Event)
    ensures e.id == freshId
    ensures EventForm(e.title, e.date, e.time) == form
  {
    Event(freshId, form.title, form.date, form.time)
  }

  /** addEvent: one new event at the end, the earlier ones untouched. */
  function AddEvent(events: seq<Event>, form: EventForm, freshId: int): (r: seq<Event>)
    ensures |r| == |events| + 1
    ensures r[..|events|] == events
    ensures r[|events|].id == freshId
    ensures EventForm(r[|events|].title, r[|events|].date, r[|events|].time) == form
  {
    events + [FromForm(form, freshId)]
  }

  /** The state slots the add-event handler reads and writes. */
  datatype CalendarSlots = CalendarSlots(events: seq<Event>, form: EventForm, showModal: bool)

  /** handleAddEvent: with every field filled, append the event, reset the
      form and close the modal; otherwise do nothing. */
  function Submitted(c: CalendarSlots, freshId: int): (r: CalendarSlots)
    ensures c.events <= r.events
    ensures |r.events| <= |c.events| + 1
  {
    if Filled(c.form) then CalendarSlots(AddEvent(c.events, c.form, freshId), EmptyForm, false)
    else c
  }

  /** A form with an empty field is refused: events, form and modal all stay. */
  lemma SubmitRefused(c: CalendarSlots, freshId: int)
    requires c.form.title == "" || c.form.date == "" || c.form.time == ""
    ensures Submitted(c, freshId) == c
  {
  }

  /** A filled form is accepted: exactly one event is appended, carrying the
      form's fields and the fresh id; the form is cleared and the modal shut. */
  lemma SubmitAccepted(c: CalendarSlots, freshId: int)
    requires Filled(c.form)
    ensures var r := Submitted(c, freshId);
            && |r.events| == |c.events| + 1
            && r.events[..|c.events|] == c.events
            && r.events[|c.events|] == Event(freshId, c.form.title, c.form.date, c.form.time)
            && r.form == EmptyForm
            && !r.showModal
  {
  }

  /** The events list grows exactly when the form was filled. */
  lemma SubmitGrowsIff(c: CalendarSlots, freshId: int)
    ensures |Submitted(c, freshId).events| == |c.events| + 1 <==> Filled(c.form)
  {
  }

  /** Submitting again right after a submission adds nothing: the form is
      either still incomplete or has just been cleared. */
  lemma SubmitTwice(c: CalendarSlots, id1: int, id2: int)
    ensures Submitted(Submitted(c, id1), id2) == Submitted(c, id1)
  {
    if Filled(c.form) {
      assert !Filled(EmptyForm);
    }
  }
}
