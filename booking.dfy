/**
 * The values the booking flow works with: the worker records returned by a
 * search, the booking draft the user edits, the order body posted to the
 * server, and the notices ("toasts") raised along the way.
 */
module Booking {
  import opened Wrappers

  /** A worker's home address as the search returns it; either part may be missing. */
  datatype Address = Address(city: Option<string>, state: Option<string>)

  /** The fields of a search result that the controller and its display rules use. */
  datatype Worker = Worker(
    id: string,
    name: string,
    brokerId: Option<string>,
    phone: Option<string>,
    address: Option<Address>,
    yearsOfExperience: Option<int>)

  /** Where the booked job is to be done, as typed into the booking form. */
  datatype Location = Location(address: string, city: string, state: string)

  /** The booking details being edited; `workerId` is absent until a worker is selected. */
  datatype Draft = Draft(title: string, description: string, location: Location, workerId: Option<string>)

  /** The booking details the component starts with and returns to after a booking. */
  const EmptyDraft := Draft("", "", Location("", "", ""), None)

  /** The JSON body of the order request. */
  datatype Order = Order(
    workerId: string,
    brokerId: Option<string>,
    title: string,
    description: string,
    category: string,
    location: Location)

  /** A toast: its title, its description, and whether it uses the destructive style. */
  datatype Notice = Notice(title: string, description: string, destructive: bool)

  const SearchErrorNotice := Notice("Search Error", "Failed to search for workers. Please try again.", true)
  const MissingInformationNotice :=
    Notice("Missing Information", "Please provide a title and description for your booking.", true)
  const BookingErrorNotice := Notice("Booking Error", "Failed to book the worker. Please try again.", true)
  const BrokerMessage := "The broker has been notified and will assign the worker to your task."
  const WorkerMessage := "The worker has been notified and will contact you soon."

  /**
   * A worker is broker-managed when its `brokerId` is truthy. This one test
   * picks the card's badge and shows the "Managed by a broker" line in place
   * of the phone number.
   */
  predicate IsBrokerManaged(w: Worker) {
    Truthy(w.brokerId)
  }

  /** The only local check before booking: a title and a description were typed. */
  predicate HasTitleAndDescription(d: Draft) {
    d.title != "" && d.description != ""
  }

  /** The draft after a worker is selected: only the worker id changes. */
  function WithWorker(d: Draft, w: Worker): (r: Draft)
    ensures r.workerId == Some(w.id)
    ensures r.title == d.title && r.description == d.description && r.location == d.location
  {
    d.(workerId := Some(w.id))
  }

  /** Selecting the same worker a second time leaves the draft as the first selection left it. */
  lemma WithWorkerIdempotent(d: Draft, w: Worker)
    ensures WithWorker(WithWorker(d, w), w) == WithWorker(d, w)
  {
    var once := WithWorker(d, w);
    assert once.workerId == Some(w.id);
  }

  /**
   * The order body for the selected worker: the worker's id and broker id,
   * the draft's title, description and location, and the active skill filter
   * as category, falling back to "other" when no skill is chosen.
   */
  function OrderBody(w: Worker, d: Draft, skills: string): (o: Order)
    ensures o.workerId == w.id && o.brokerId == w.brokerId
    ensures o.title == d.title && o.description == d.description && o.location == d.location
    ensures o.category != ""
    ensures skills != "" ==> o.category == skills
    ensures skills == "" ==> o.category == "other"
  {
    Order(w.id, w.brokerId, d.title, d.description, if skills != "" then skills else "other", d.location)
  }

  /** The success toast: it speaks of the broker exactly when the worker is broker-managed. */
  function SuccessNotice(w: Worker): (n: Notice)
    ensures n.title == "Booking Successful" && !n.destructive
    ensures n.description == BrokerMessage <==> IsBrokerManaged(w)
    ensures n.description == WorkerMessage <==> !IsBrokerManaged(w)
  {
    Notice("Booking Successful", if IsBrokerManaged(w) then BrokerMessage else WorkerMessage, false)
  }
}
