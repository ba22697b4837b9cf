/**
 * The "my appointments" screen: the search, status and date filters, the
 * list bucketed by day with the days in ascending order, the status badge,
 * and cancelling an appointment.
 */
module MyAppointments {
  import opened Wrappers
  import opened JsValues
  import opened Text
  import opened Grouping
  import opened ApiClient

  /** An appointment as the list holds it; other fields are only displayed. */
  datatype Appointment = Appointment(id: int, serviceName: Option<string>, status: Option<string>, startTime: Option<string>)

  /** `isSameDay`: false when either side is missing or empty, else the date part before `T` must equal the day. */
  function IsSameDay(dateTime: Option<string>, day: string): (b: bool)
    ensures b ==> dateTime.Some? && |day| <= |dateTime.value| && dateTime.value[..|day|] == day && 'T' !in day
    ensures day == "" ==> !b
  {
    Truthy(dateTime) && day != "" && BeforeFirst(dateTime.value, 'T') == day
  }

  /** The three filters the screen applies. */
  datatype Filters = Filters(searchTerm: string, statusFilter: string, dateFilter: string)

  /** The filters the screen starts with: no search, every status, any day. */
  const DefaultFilters := Filters("", "all", "")

  /** An appointment is listed when its service name contains the search term (ignoring case), its status passes, and its day passes. */
  function Matches(a: Appointment, f: Filters): (b: bool)
    ensures b && f.statusFilter != "all" ==> a.status == Some(f.statusFilter)
    ensures b && f.dateFilter != "" ==> DateKey(a) == f.dateFilter
    ensures f.dateFilter != "" && !Truthy(a.startTime) ==> !b
  {
    Contains(ToLower(Or(a.serviceName, "")), ToLower(f.searchTerm))
    && (f.statusFilter == "all" || a.status == Some(f.statusFilter))
    && (f.dateFilter == "" || IsSameDay(a.startTime, f.dateFilter))
  }

  /** `filteredAppointments`: the matching appointments, in list order. */
  function FilterAppointments(apps: seq<Appointment>, f: Filters): (r: seq<Appointment>)
    ensures |r| <= |apps|
    ensures forall i :: 0 <= i < |r| ==> Matches(r[i], f)
    ensures forall a :: a in r <==> a in apps && Matches(a, f)
  {
    if apps == [] then []
    else
      var init := FilterAppointments(apps[..|apps| - 1], f);
      var last := apps[|apps| - 1];
      assert forall a :: a in apps <==> a in apps[..|apps| - 1] || a == last by {
        assert apps == apps[..|apps| - 1] + [last];
      }
      init + (if Matches(last, f) then [last] else [])
  }

  /** Filtering distributes over concatenation, so the kept appointments keep their order. */
  lemma {:induction false} FilterAppend(a: seq<Appointment>, b: seq<Appointment>, f: Filters)
    ensures FilterAppointments(a + b, f) == FilterAppointments(a, f) + FilterAppointments(b, f)
    decreases |b|
  {
    if b != [] {
      var b' := b[..|b| - 1];
      assert (a + b)[..|a + b| - 1] == a + b';
      assert (a + b)[|a + b| - 1] == b[|b| - 1];
      FilterAppend(a, b', f);
    } else {
      assert a + b == a;
    }
  }

  /** Filtering a list with one more appointment filters the rest and then that one. */
  lemma FilterSnoc(init: seq<Appointment>, last: Appointment, f: Filters)
    ensures FilterAppointments(init + [last], f) == FilterAppointments(init, f) + (if Matches(last, f) then [last] else [])
  {
    assert (init + [last])[..|init + [last]| - 1] == init;
  }

  /** Occurrences in a concatenation add up. */
  lemma CountAppend<T>(a: seq<T>, b: seq<T>, x: T)
    ensures multiset(a + b)[x] == multiset(a)[x] + multiset(b)[x]
  {
  }

  /** A listed appointment appears as often as in the full list; an unlisted one not at all. */
  lemma {:induction false} FilterMultiplicity(apps: seq<Appointment>, f: Filters, x: Appointment)
    ensures multiset(FilterAppointments(apps, f))[x] == if Matches(x, f) then multiset(apps)[x] else 0
  {
    if apps != [] {
      var init, last := apps[..|apps| - 1], apps[|apps| - 1];
      var tail := if Matches(last, f) then [last] else [];
      assert apps == init + [last];
      FilterMultiplicity(init, f, x);
      FilterSnoc(init, last, f);
      CountAppend(FilterAppointments(init, f), tail, x);
      CountAppend(init, [last], x);
    }
  }

  /** With the starting filters every appointment is listed, in order. */
  lemma {:induction false} DefaultFiltersKeepAll(apps: seq<Appointment>)
    ensures FilterAppointments(apps, DefaultFilters) == apps
  {
    if apps != [] {
      DefaultFiltersKeepAll(apps[..|apps| - 1]);
      ContainsEmpty(ToLower(Or(apps[|apps| - 1].serviceName, "")));
      assert ToLower(DefaultFilters.searchTerm) == "";
      assert apps == apps[..|apps| - 1] + [apps[|apps| - 1]];
    }
  }

  // ---------------------------------------------------------------- by date

  /** The day an appointment is grouped under: `String(startTime).split("T")[0]`. */
  function DateKey(a: Appointment): string {
    BeforeFirst(StringOf(a.startTime), 'T')
  }

  /** The date filter and the grouping agree: a present start time is on a day exactly when it is grouped under that day. */
  lemma SameDayIffGroupKey(a: Appointment, day: string)
    requires Truthy(a.startTime) && day != ""
    ensures IsSameDay(a.startTime, day) <==> DateKey(a) == day
  {
  }

  /** One day's bucket. */
  datatype DateGroup = DateGroup(dateKey: string, items: seq<Appointment>)

  /** `Object.keys(groups).sort()`: the distinct keys by insertion into a sorted list. */
  method SortKeys(keys: seq<string>) returns (sorted: seq<string>)
    requires forall i, j :: 0 <= i < j < |keys| ==> keys[i] != keys[j]
    ensures StrictlySorted(sorted)
    ensures |sorted| == |keys|
    ensures forall k :: k in sorted <==> k in keys
  {
    sorted := [];
    var i := 0;
    while i < |keys|
      invariant 0 <= i <= |keys|
      invariant StrictlySorted(sorted)
      invariant |sorted| == i
      invariant forall k :: k in sorted <==> k in keys[..i]
    {
      assert keys[i] !in keys[..i];
      assert keys[..i + 1] == keys[..i] + [keys[i]];
      sorted := InsertSorted(sorted, keys[i]);
      i := i + 1;
    }
    assert keys[..i] == keys;
  }

  /**
   * `groupByDate`: one bucket per day that occurs, the days in ascending
   * order, each bucket holding that day's appointments in list order.
   */
  method GroupByDate(filtered: seq<Appointment>) returns (groups: seq<DateGroup>)
    ensures StrictlySorted(DayKeys(groups))
    ensures forall k :: k in DayKeys(groups) <==> k in KeysInOrder(filtered, DateKey)
    ensures forall i :: 0 <= i < |groups| ==> groups[i].items == Select(filtered, DateKey, groups[i].dateKey)
  {
    var keys, buckets := GroupBy(filtered, DateKey);
    var sorted := SortKeys(keys);
    groups := seq(|sorted|, i requires 0 <= i < |sorted| && sorted[i] in buckets => DateGroup(sorted[i], buckets[sorted[i]]));
    assert DayKeys(groups) == sorted;
    forall i | 0 <= i < |groups| ensures groups[i].items == Select(filtered, DateKey, groups[i].dateKey) {
      assert sorted[i] in keys;
    }
  }

  function DayKeys(groups: seq<DateGroup>): (r: seq<string>)
    ensures |r| == |groups| && forall i :: 0 <= i < |groups| ==> r[i] == groups[i].dateKey
  {
    seq(|groups|, i requires 0 <= i < |groups| => groups[i].dateKey)
  }

  /**
   * Days sorted as the screen sorts them partition the list: each
   * appointment is in the bucket of its own day only, and the buckets
   * together hold every appointment once.
   */
  lemma DateGroupsPartition(filtered: seq<Appointment>, days: seq<string>, a: Appointment, day: string)
    requires StrictlySorted(days)
    requires forall k :: k in days <==> k in KeysInOrder(filtered, DateKey)
    ensures multiset(Select(filtered, DateKey, day))[a] == if DateKey(a) == day then multiset(filtered)[a] else 0
    ensures TotalSize(filtered, DateKey, days) == |filtered|
  {
    SelectMultiplicity(filtered, DateKey, day, a);
    forall i, j | 0 <= i < j < |days| ensures days[i] != days[j] {
      LexLessIrreflexive(days[i]);
    }
    TotalSizeCovering(filtered, DateKey, days);
  }

  // ---------------------------------------------------------------- status

  /** `getStatusText`; a pending appointment is shown as unknown. */
  function GetStatusText(status: Option<string>): (t: string)
    ensures t == "Confirmado" <==> status == Some("CONFIRMED")
    ensures t == "Cancelado" <==> status == Some("CANCELLED")
    ensures t != "Confirmado" && t != "Cancelado" ==> t == "Desconocido"
  {
    if status == Some("CONFIRMED") then "Confirmado"
    else if status == Some("CANCELLED") then "Cancelado"
    else "Desconocido"
  }

  /** `getStatusColor`. */
  function GetStatusColor(status: Option<string>): (c: string)
    ensures c == "#28A745" <==> status == Some("CONFIRMED")
    ensures c == "#DC3545" <==> status == Some("CANCELLED")
    ensures c == "#6C757D" <==> status != Some("CONFIRMED") && status != Some("CANCELLED")
  {
    if status == Some("CONFIRMED") then "#28A745"
    else if status == Some("CANCELLED") then "#DC3545"
    else "#6C757D"
  }

  /** The cancel button is offered for pending and confirmed appointments. */
  function CanCancel(a: Appointment): (b: bool)
    ensures b ==> a.status.Some? && a.status.value in {"PENDING", "CONFIRMED"}
    ensures a.status.None? || a.status == Some("CANCELLED") ==> !b
    ensures b ==> GetStatusText(a.status) != "Cancelado" && GetStatusColor(a.status) != "#DC3545"
  {
    a.status == Some("PENDING") || a.status == Some("CONFIRMED")
  }

  /** A pending appointment can be cancelled although its badge reads "Desconocido". */
  lemma PendingIsCancellableButUnknown(a: Appointment)
    requires a.status == Some("PENDING")
    ensures CanCancel(a) && GetStatusText(a.status) == "Desconocido"
  {
  }

  // ---------------------------------------------------------------- cancelling

  /** The list after a successful cancel: the appointments with the id become cancelled, all others stay as they were. */
  function MarkCancelled(apps: seq<Appointment>, id: int): (r: seq<Appointment>)
    ensures |r| == |apps|
    ensures forall i :: 0 <= i < |apps| && apps[i].id != id ==> r[i] == apps[i]
    ensures forall i :: 0 <= i < |apps| && apps[i].id == id ==> r[i] == apps[i].(status := Some("CANCELLED"))
  {
    seq(|apps|, i requires 0 <= i < |apps| => if apps[i].id == id then apps[i].(status := Some("CANCELLED")) else apps[i])
  }

  /**
   * Cancelling twice is cancelling once; a cancelled appointment reads
   * "Cancelado" and is no longer offered for cancelling.
   */
  lemma MarkCancelledSettles(apps: seq<Appointment>, id: int, i: int)
    requires 0 <= i < |apps| && apps[i].id == id
    ensures MarkCancelled(MarkCancelled(apps, id), id) == MarkCancelled(apps, id)
    ensures GetStatusText(MarkCancelled(apps, id)[i].status) == "Cancelado"
    ensures !CanCancel(MarkCancelled(apps, id)[i])
  {
  }

  const CancelDefault := "Error al cancelar el turno"
  const LoadDefault := "Error al obtener los turnos"

  /** What the delete request did; the client never throws, a failure carries a message. */
  datatype CancelReply = CancelOk | CancelFailed(error: HttpError)

  /** What the list request did. */
  datatype ListReply = Listed(data: Option<seq<Appointment>>) | ListFailed(error: HttpError)

  class AppointmentsScreen {
    var appointments: seq<Appointment>
    var loading: bool
    var error: Option<string>
    var filters: Filters
    var selected: Option<Appointment>
    var showCancelModal: bool

    constructor ()
      ensures appointments == [] && loading && error == None && filters == DefaultFilters
      ensures selected == None && !showCancelModal
    {
      appointments := [];
      loading := true;
      error := None;
      filters := DefaultFilters;
      selected := None;
      showCancelModal := false;
    }

    /** What the list shows. */
    function Filtered(): seq<Appointment>
      reads this
    {
      FilterAppointments(appointments, filters)
    }

    /** `loadAppointments`: the list is replaced on success (missing data as empty); a failure keeps it and sets the message. */
    method LoadAppointments(reply: ListReply)
      modifies this
      ensures !loading
      ensures reply.Listed? ==> appointments == reply.data.GetOr([]) && error == None
      ensures reply.Listed? && filters == DefaultFilters ==> Filtered() == appointments
      ensures reply.ListFailed? ==> appointments == old(appointments) && error == Some(Or(reply.error.dataMessage, LoadDefault))
      ensures filters == old(filters) && selected == old(selected) && showCancelModal == old(showCancelModal)
    {
      loading := true;
      error := None;
      match reply {
        case Listed(data) =>
          appointments := data.GetOr([]);
        case ListFailed(e) =>
          var message := Or(e.dataMessage, LoadDefault);
          error := Some(Or(Some(message), "Error al cargar los turnos"));
      }
      loading := false;
      DefaultFiltersKeepAll(appointments);
    }

    method OpenCancelModal(a: Appointment)
      modifies this
      ensures selected == Some(a) && showCancelModal
      ensures appointments == old(appointments) && loading == old(loading) && error == old(error) && filters == old(filters)
    {
      selected := Some(a);
      showCancelModal := true;
    }

    method CloseCancelModal()
      modifies this
      ensures selected == None && !showCancelModal
      ensures appointments == old(appointments) && loading == old(loading) && error == old(error) && filters == old(filters)
    {
      showCancelModal := false;
      selected := None;
    }

    /**
     * `handleCancelAppointment`: without a selection nothing happens. A
     * successful cancel marks the selected id cancelled and closes the
     * modal; a failed one changes no appointment and shows the message.
     */
    method HandleCancelAppointment(reply: CancelReply) returns (alert: Option<string>)
      modifies this
      ensures old(selected).None? ==>
        alert == None && appointments == old(appointments) && loading == old(loading)
        && selected == old(selected) && showCancelModal == old(showCancelModal)
      ensures old(selected).Some? && reply.CancelOk? ==>
        appointments == MarkCancelled(old(appointments), old(selected).value.id)
        && alert == Some("Turno cancelado correctamente") && !showCancelModal && selected == None && !loading
      ensures old(selected).Some? && reply.CancelFailed? ==>
        appointments == old(appointments) && alert == Some(Or(reply.error.dataMessage, CancelDefault))
        && showCancelModal == old(showCancelModal) && selected == old(selected) && !loading
      ensures error == old(error) && filters == old(filters)
    {
      if selected.None? {
        return None;
      }
      loading := true;
      var id := selected.value.id;
      match reply {
        case CancelOk =>
          appointments := MarkCancelled(appointments, id);
          alert := Some("Turno cancelado correctamente");
          showCancelModal := false;
          selected := None;
        case CancelFailed(e) =>
          var message := Or(e.dataMessage, CancelDefault);
          alert := Some(Or(Some(message), CancelDefault));
      }
      loading := false;
    }
  }
}
