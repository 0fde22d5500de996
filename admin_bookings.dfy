/** The administrator's page over every user's bookings: the filters and the
    query parameters they turn into, the confirm and cancel actions, which of
    them a booking's status enables, and how a service's name is shown. */
module AdminBookings {
  import opened Js
  import opened Api
  import opened Calendar
  import CreateBooking

  /** A booking as `GET bookings/` lists it for the administrator: the date and
      the times may be `null`, and the owner's name may be missing. */
  datatype AdminBooking = AdminBooking(
    id: Id, service: Id, date: Option<string>, startTime: Option<string>,
    endTime: Option<string>, status: Status, username: Option<string>)

  /** The text of a status as the API spells it. */
  function StatusText(s: Status): (r: string)
    ensures r in {"PENDING", "CONFIRMED", "CANCELLED"}
  {
    match s
    case Pending => "PENDING"
    case Confirmed => "CONFIRMED"
    case Cancelled => "CANCELLED"
  }

  lemma StatusTextInjective(a: Status, b: Status)
    requires StatusText(a) == StatusText(b)
    ensures a == b
  {
  }

  // ---------------------------------------------------------------------------
  // the date filter

  /** `dateISO`: the empty string while no date is chosen, else `YYYY-MM-DD`. */
  function DateISO(selected: Option<CalendarDate>): string
  {
    if selected.None? then "" else IsoDate(selected.value)
  }

  /** The date filter is falsy exactly while no date is chosen, and two chosen
      dates give the same filter only when they are the same date. */
  lemma {:induction false} DateISOFilter(a: Option<CalendarDate>, b: Option<CalendarDate>)
    requires a.Some? ==> ValidDate(a.value) && 0 <= a.value.year
    requires b.Some? ==> ValidDate(b.value) && 0 <= b.value.year
    ensures DateISO(a) == "" <==> a.None?
    ensures DateISO(a) == DateISO(b) ==> a == b
  {
    if a.Some? {
      assert IsoDate(a.value)[|IntToString(a.value.year)|] == '-';
    }
    if b.Some? {
      assert IsoDate(b.value)[|IntToString(b.value.year)|] == '-';
    }
    if a.Some? && b.Some? && DateISO(a) == DateISO(b) {
      IsoDateInjective(a.value, b.value);
    }
  }

  // ---------------------------------------------------------------------------
  // query parameters

  /** The page's four filters: the service (`number | ""`), the status
      (`Status | ""`), the chosen day and the typed username. */
  datatype Filters = Filters(serviceId: Pick, status: Option<Status>, date: Option<CalendarDate>, username: string)

  const NoFilters := Filters(Unset, None, None, "")

  /** A value of the `params` record. */
  datatype ParamValue = NumberParam(n: int) | TextParam(text: string)

  /** `params` for a service, a status, a `dateISO` and a trimmed username:
      a key for each of them that is set (a truthy service, a status, a
      non-empty date or name) holding its value, and no other key. */
  predicate ParamsOf(params: map<string, ParamValue>, service: Pick, status: Option<Status>, date: string, name: string)
  {
    && ("service" in params <==> service.Truthy())
    && (service.Truthy() ==> params["service"] == NumberParam(service.id))
    && ("status" in params <==> status.Some?)
    && (status.Some? ==> params["status"] == TextParam(StatusText(status.value)))
    && ("date" in params <==> date != "")
    && (date != "" ==> params["date"] == TextParam(date))
    && ("username" in params <==> name != "")
    && (name != "" ==> params["username"] == TextParam(name))
    && params.Keys <= {"service", "status", "date", "username"}
  }

  /** `params` for the filters `f`: the username is trimmed and a blank one
      is left out. */
  predicate ParamsFor(params: map<string, ParamValue>, f: Filters)
  {
    ParamsOf(params, f.serviceId, f.status, DateISO(f.date), Trim(f.username))
  }

  /** The parameters are determined by the filters. */
  lemma {:induction false} ParamsOfUnique(p: map<string, ParamValue>, q: map<string, ParamValue>,
                                          service: Pick, status: Option<Status>, date: string, name: string)
    requires ParamsOf(p, service, status, date, name) && ParamsOf(q, service, status, date, name)
    ensures p == q
  {
    assert p.Keys == q.Keys;
    forall k | k in p
      ensures p[k] == q[k]
    {
      assert k in {"service", "status", "date", "username"};
    }
  }

  /** The request is unfiltered exactly when no filter is set. */
  lemma {:induction false} UnfilteredRequest(params: map<string, ParamValue>,
                                             service: Pick, status: Option<Status>, date: string, name: string)
    requires ParamsOf(params, service, status, date, name)
    ensures params == map[] <==> !service.Truthy() && status.None? && date == "" && name == ""
  {
    if !service.Truthy() && status.None? && date == "" && name == "" {
      assert params.Keys == {};
    }
  }

  /** Once the filters are cleared the request carries no parameter, and a
      username of blanks counts as no username. */
  lemma {:induction false} ClearedFiltersUnfiltered(params: map<string, ParamValue>, f: Filters)
    requires ParamsFor(params, f)
    requires f.serviceId == Unset && f.status.None? && f.date.None? && AllWhiteSpace(f.username)
    ensures params == map[]
  {
    TrimEmptyIff(f.username);
    UnfilteredRequest(params, f.serviceId, f.status, DateISO(f.date), Trim(f.username));
  }

  /** The `params` record of `fetchBookings`, filled key by key. */
  method BuildParams(f: Filters) returns (params: map<string, ParamValue>)
    ensures ParamsFor(params, f)
  {
    params := map[];
    if f.serviceId.Truthy() {
      params := params["service" := NumberParam(f.serviceId.id)];
    }
    if f.status.Some? {
      params := params["status" := TextParam(StatusText(f.status.value))];
    }
    var dateISO := DateISO(f.date);
    if dateISO != "" {
      params := params["date" := TextParam(dateISO)];
    }
    var name := Trim(f.username);
    if name != "" {
      params := params["username" := TextParam(name)];
    }
  }

  // ---------------------------------------------------------------------------
  // services and actions

  /** `services.find((s) => s.id === id)`: the first service with that id. */
  function FindService(services: seq<Service>, id: Id): (r: Option<nat>)
    ensures r.None? <==> forall i :: 0 <= i < |services| ==> services[i].id != id
    ensures r.Some? ==> r.value < |services| && services[r.value].id == id
    ensures r.Some? ==> forall k :: 0 <= k < r.value ==> services[k].id != id
    decreases |services|
  {
    if services == [] then None
    else if services[0].id == id then Some(0)
    else
      var rest := FindService(services[1..], id);
      if rest.None? then
        assert forall i :: 1 <= i < |services| ==> services[i] == services[1..][i - 1];
        None
      else
        assert forall k :: 1 <= k < rest.value + 1 ==> services[k] == services[1..][k - 1];
        Some(rest.value + 1)
  }

  /** `getServiceName`: the first matching service's name, or `#<id>` when no
      service matches or that name is empty. */
  function GetServiceName(services: seq<Service>, id: Id): string
  {
    var found := FindService(services, id);
    Or(if found.Some? then services[found.value].name else "", "#" + IntToString(id))
  }

  /** The name shown is that of the first service listed under `id` unless it
      is empty; otherwise `#` and the id, which reads back with `Number`. */
  lemma {:induction false} ServiceNameShown(services: seq<Service>, id: Id, j: int)
    requires 0 <= j < |services| && services[j].id == id
    requires forall k :: 0 <= k < j ==> services[k].id != id
    ensures services[j].name != "" ==> GetServiceName(services, id) == services[j].name
    ensures services[j].name == "" ==> GetServiceName(services, id) == "#" + IntToString(id)
  {
  }

  /** Without a service under `id` the name is `#<id>`, and `Number` of the
      text after the `#` gives the id back. */
  lemma {:induction false} ServiceNameFallback(services: seq<Service>, id: Id)
    requires forall i :: 0 <= i < |services| ==> services[i].id != id
    ensures GetServiceName(services, id) == "#" + IntToString(id)
    ensures ToNumber(GetServiceName(services, id)[1..]) == Some(id)
  {
    assert ("#" + IntToString(id))[1..] == IntToString(id);
    ToNumberIntToString(id);
  }

  /** Confirm is enabled for a pending booking only. */
  predicate ConfirmEnabled(s: Status)
  {
    s == Pending
  }

  /** Cancel is enabled for any booking that is not already cancelled. */
  predicate CancelEnabled(s: Status)
  {
    s != Cancelled
  }

  /** Whatever can be confirmed can be cancelled too; a confirmed booking can
      still be cancelled but not confirmed again; a cancelled one allows
      neither. */
  lemma ActionsByStatus(s: Status)
    ensures ConfirmEnabled(s) ==> CancelEnabled(s)
    ensures (ConfirmEnabled(s) <==> s == Pending) && (CancelEnabled(s) <==> s != Cancelled)
    ensures s == Confirmed ==> !ConfirmEnabled(s) && CancelEnabled(s)
    ensures s == Cancelled ==> !ConfirmEnabled(s) && !CancelEnabled(s)
  {
  }

  /** The answer to `GET bookings/`. */
  datatype FetchOutcome = Fetched(data: seq<AdminBooking>) | FetchFail(err: ApiError)

  /** The answer to `POST bookings/<id>/confirm/` or `.../cancel/`. */
  datatype ActionOutcome = ActionOk | ActionFail(err: ApiError)

  const LoadFailed := "Could not load bookings."
  const ConfirmFailed := "Could not confirm booking."
  const CancelFailed := "Could not cancel booking."

  /** The notice set after a successful confirm or cancel. */
  function Notice(id: Id, verb: string): string
  {
    "Booking #" + IntToString(id) + " " + verb + "."
  }

  // ---------------------------------------------------------------------------
  // the page

  class AdminBookingsPage {
    var services: seq<Service>
    var bookings: seq<AdminBooking>
    var loading: bool
    var serviceId: Pick
    var status: Option<Status>
    var selectedDate: Option<CalendarDate>
    var username: string
    var successMsg: string
    var errorMsg: string

    function FiltersOf(): Filters
      reads this
    {
      Filters(serviceId, status, selectedDate, username)
    }

    constructor ()
      ensures services == [] && bookings == [] && !loading
      ensures FiltersOf() == NoFilters && successMsg == "" && errorMsg == ""
    {
      services := [];
      bookings := [];
      loading := false;
      serviceId := Unset;
      status := None;
      selectedDate := None;
      username := "";
      successMsg := "";
      errorMsg := "";
    }

    /** `fetchBookings`: clears both messages, requests `GET bookings/` with
        the parameters of the current filters, and takes the answer; a failure
        empties the list and shows the error. `loading` is false afterwards in
        every case, and the filters are left as they are. */
    method FetchBookings(outcome: FetchOutcome) returns (params: map<string, ParamValue>)
      modifies this`bookings, this`loading, this`successMsg, this`errorMsg
      ensures ParamsFor(params, FiltersOf())
      ensures !loading && successMsg == ""
      ensures outcome.Fetched? ==> bookings == outcome.data && errorMsg == ""
      ensures outcome.FetchFail? ==> bookings == [] && errorMsg == DetailFirstMessage(outcome.err, LoadFailed)
    {
      var f := FiltersOf();
      params := BuildParams(f);
      Settle(outcome);
    }

    /** The part of `fetchBookings` after its request: the messages are
        cleared, the answer (or an empty list and the error) is taken, and
        `loading` ends false. */
    method Settle(outcome: FetchOutcome)
      modifies this`bookings, this`loading, this`successMsg, this`errorMsg
      ensures !loading && successMsg == ""
      ensures outcome.Fetched? ==> bookings == outcome.data && errorMsg == ""
      ensures outcome.FetchFail? ==> bookings == [] && errorMsg == DetailFirstMessage(outcome.err, LoadFailed)
    {
      loading := true;
      successMsg := "";
      errorMsg := "";
      match outcome {
        case Fetched(data) =>
          bookings := data;
        case FetchFail(err) =>
          errorMsg := DetailFirstMessage(err, LoadFailed);
          bookings := [];
      }
      loading := false;
    }

    /** What `handleConfirm` and `handleCancel` share: clear both messages,
        POST, then on success set the notice and refetch with `refetch` as the
        answer, on failure show the error with the given fallback. */
    method Act(notice: string, fallback: string, post: ActionOutcome, refetch: FetchOutcome)
      returns (params: Option<map<string, ParamValue>>)
      modifies this`bookings, this`loading, this`successMsg, this`errorMsg
      ensures params.Some? <==> post.ActionOk?
      ensures post.ActionOk? ==> ParamsFor(params.value, FiltersOf()) && !loading && successMsg == ""
      ensures post.ActionOk? && refetch.Fetched? ==> bookings == refetch.data && errorMsg == ""
      ensures post.ActionOk? && refetch.FetchFail? ==>
        bookings == [] && errorMsg == DetailFirstMessage(refetch.err, LoadFailed)
      ensures post.ActionFail? ==>
        && bookings == old(bookings) && loading == old(loading)
        && successMsg == "" && errorMsg == DetailFirstMessage(post.err, fallback)
    {
      successMsg := "";
      errorMsg := "";
      match post {
        case ActionOk =>
          successMsg := notice;
          var p := FetchBookings(refetch);
          params := Some(p);
        case ActionFail(err) =>
          errorMsg := DetailFirstMessage(err, fallback);
          params := None;
      }
    }

    /** `handleConfirm(id)`. The notice is cleared again by the refetch, so a
        successful confirm ends with no notice shown. */
    method HandleConfirm(id: Id, post: ActionOutcome, refetch: FetchOutcome)
      returns (params: Option<map<string, ParamValue>>)
      modifies this`bookings, this`loading, this`successMsg, this`errorMsg
      ensures params.Some? <==> post.ActionOk?
      ensures post.ActionOk? ==> ParamsFor(params.value, FiltersOf()) && !loading && successMsg == ""
      ensures post.ActionOk? && refetch.Fetched? ==> bookings == refetch.data && errorMsg == ""
      ensures post.ActionOk? && refetch.FetchFail? ==>
        bookings == [] && errorMsg == DetailFirstMessage(refetch.err, LoadFailed)
      ensures post.ActionFail? ==>
        && bookings == old(bookings) && loading == old(loading)
        && successMsg == "" && errorMsg == DetailFirstMessage(post.err, ConfirmFailed)
    {
      params := Act(Notice(id, "confirmed"), ConfirmFailed, post, refetch);
    }

    /** `handleCancel(id)`, the same with its own notice and fallback. */
    method HandleCancel(id: Id, post: ActionOutcome, refetch: FetchOutcome)
      returns (params: Option<map<string, ParamValue>>)
      modifies this`bookings, this`loading, this`successMsg, this`errorMsg
      ensures params.Some? <==> post.ActionOk?
      ensures post.ActionOk? ==> ParamsFor(params.value, FiltersOf()) && !loading && successMsg == ""
      ensures post.ActionOk? && refetch.Fetched? ==> bookings == refetch.data && errorMsg == ""
      ensures post.ActionOk? && refetch.FetchFail? ==>
        bookings == [] && errorMsg == DetailFirstMessage(refetch.err, LoadFailed)
      ensures post.ActionFail? ==>
        && bookings == old(bookings) && loading == old(loading)
        && successMsg == "" && errorMsg == DetailFirstMessage(post.err, CancelFailed)
    {
      params := Act(Notice(id, "cancelled"), CancelFailed, post, refetch);
    }

    /** `clearFilters`: every filter back to empty. */
    method ClearFilters()
      modifies this`serviceId, this`status, this`selectedDate, this`username
      ensures FiltersOf() == NoFilters
    {
      serviceId := Unset;
      status := None;
      selectedDate := None;
      username := "";
    }

    /** The service select: `Number(value) || ""`. */
    method SelectService(value: string)
      modifies this`serviceId
      ensures serviceId == CreateBooking.PickOf(ToNumber(value))
    {
      serviceId := CreateBooking.PickOf(ToNumber(value));
    }

    /** The status select: its value, or `""` for "All". */
    method SelectStatus(value: Option<Status>)
      modifies this`status
      ensures status == value
    {
      status := value;
    }

    /** The date picker; a cleared picker gives `null`. */
    method SelectDate(d: Option<CalendarDate>)
      modifies this`selectedDate
      ensures selectedDate == d
    {
      selectedDate := d;
    }

    /** The username input, stored as typed; it is trimmed only when the
        parameters are built. */
    method TypeUsername(value: string)
      modifies this`username
      ensures username == value
    {
      username := value;
    }
  }
}
