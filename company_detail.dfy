/**
 * The company page: the company record built from the backend's answer
 * with its defaults, the weekly opening-hours table, the booking-window
 * check on a chosen day, and the selection state (service, day, slot) that
 * the booking tab steps through.
 */
module CompanyDetail {
  import opened Wrappers
  import opened JsValues
  import opened Text
  import opened ApiClient
  import opened ServiceSelector
  import opened TimeSlotSelector

  // ---------------------------------------------------------------- backend record

  /** One opening-hours entry as the backend sends it (a missing `workingDay` is `false`). */
  datatype BackendHours = BackendHours(dayOfWeek: string, workingDay: bool, openingTime: Option<string>, closingTime: Option<string>)

  /** The company as the backend sends it; every field may be missing. */
  datatype BackendCompany = BackendCompany(
    id: int, name: Option<string>, category: Option<string>, urlSlug: Option<string>,
    description: Option<string>, logoUrl: Option<string>, address: Option<string>, phone: Option<string>,
    cancellationHours: Option<int>, minAdvanceDays: Option<int>, maxAdvanceDays: Option<int>,
    hasTimeBetweenTurns: Option<bool>, minutesBetweenTurns: Option<int>,
    businessHours: Option<seq<BackendHours>>)

  datatype BusinessHour = BusinessHour(day: string, workingDay: bool, openTime: Option<string>, closeTime: Option<string>)

  /** The company as the screen keeps it. */
  datatype Company = Company(
    id: int, name: Option<string>, category: string, urlSlug: Option<string>,
    description: string, logoUrl: Option<string>, address: string, phone: string,
    cancellationHours: int, minAdvanceDays: int, maxAdvanceDays: int,
    hasTimeBetweenTurns: bool, minutesBetweenTurns: int,
    businessHours: seq<BusinessHour>)

  function MapHours(h: BackendHours): BusinessHour {
    BusinessHour(h.dayOfWeek, h.workingDay, h.openingTime, h.closingTime)
  }

  /**
   * `mapBackendToFrontend`: every text the page shows gets a placeholder when
   * missing or empty, and the numbers default through `||`, so a zero from
   * the backend counts as missing too.
   */
  function MapBackendToFrontend(b: BackendCompany): (c: Company)
    ensures c.id == b.id && c.name == b.name && c.urlSlug == b.urlSlug
    ensures c.category != "" && c.description != "" && c.address != "" && c.phone != ""
    ensures Truthy(b.category) ==> c.category == b.category.value
    ensures Truthy(b.description) ==> c.description == b.description.value
    ensures Truthy(b.address) ==> c.address == b.address.value
    ensures Truthy(b.phone) ==> c.phone == b.phone.value
    ensures !Truthy(b.category) ==> c.category == "Sin categoría"
    ensures !Truthy(b.description) ==> c.description == "Descripción no disponible"
    ensures !Truthy(b.address) ==> c.address == "Dirección no disponible"
    ensures !Truthy(b.phone) ==> c.phone == "Teléfono no disponible"
    ensures c.logoUrl == OrNull(b.logoUrl)
    ensures c.cancellationHours != 0 && c.maxAdvanceDays != 0
    ensures TruthyNum(b.cancellationHours) ==> c.cancellationHours == b.cancellationHours.value
    ensures !TruthyNum(b.cancellationHours) ==> c.cancellationHours == 24
    ensures TruthyNum(b.minAdvanceDays) ==> c.minAdvanceDays == b.minAdvanceDays.value
    ensures !TruthyNum(b.minAdvanceDays) ==> c.minAdvanceDays == 0
    ensures TruthyNum(b.maxAdvanceDays) ==> c.maxAdvanceDays == b.maxAdvanceDays.value
    ensures !TruthyNum(b.maxAdvanceDays) ==> c.maxAdvanceDays == 30
    ensures c.hasTimeBetweenTurns <==> b.hasTimeBetweenTurns == Some(true)
    ensures TruthyNum(b.minutesBetweenTurns) ==> c.minutesBetweenTurns == b.minutesBetweenTurns.value
    ensures !TruthyNum(b.minutesBetweenTurns) ==> c.minutesBetweenTurns == 0
    ensures |c.businessHours| == if b.businessHours.Some? then |b.businessHours.value| else 0
    ensures forall i :: 0 <= i < |c.businessHours| ==> c.businessHours[i] == MapHours(b.businessHours.value[i])
  {
    Company(
      b.id, b.name, Or(b.category, "Sin categoría"), b.urlSlug,
      Or(b.description, "Descripción no disponible"), OrNull(b.logoUrl),
      Or(b.address, "Dirección no disponible"), Or(b.phone, "Teléfono no disponible"),
      OrNum(b.cancellationHours, 24), OrNum(b.minAdvanceDays, 0), OrNum(b.maxAdvanceDays, 30),
      b.hasTimeBetweenTurns == Some(true), OrNum(b.minutesBetweenTurns, 0),
      if b.businessHours.Some? then seq(|b.businessHours.value|, i requires 0 <= i < |b.businessHours.value| => MapHours(b.businessHours.value[i]))
      else [])
  }

  /** A backend window that closes "0 days ahead" is read as missing and opens 30 days instead. */
  lemma ZeroMaxAdvanceBecomesThirty(b: BackendCompany)
    requires b.maxAdvanceDays == Some(0)
    ensures MapBackendToFrontend(b).maxAdvanceDays == 30
  {
  }

  /**
   * The date picker is given `company?.minAdvanceDays || 0` and
   * `company?.maxAdvanceDays || 30`; for a company that went through the mapping
   * those are exactly the company's own window.
   */
  function PickerWindow(company: Option<Company>): (int, int) {
    if company.None? then (0, 30)
    else (OrNum(Some(company.value.minAdvanceDays), 0), OrNum(Some(company.value.maxAdvanceDays), 30))
  }

  lemma PickerWindowOfMappedCompany(b: BackendCompany)
    ensures PickerWindow(Some(MapBackendToFrontend(b))) ==
      (MapBackendToFrontend(b).minAdvanceDays, MapBackendToFrontend(b).maxAdvanceDays)
  {
  }

  // ---------------------------------------------------------------- opening hours

  const WeekDays: seq<string> := ["MONDAY", "TUESDAY", "WEDNESDAY", "THURSDAY", "FRIDAY", "SATURDAY", "SUNDAY"]
  const DayNames: seq<string> := ["Lunes", "Martes", "Miércoles", "Jueves", "Viernes", "Sábado", "Domingo"]

  /** `getDayName`: the Spanish name of a weekday constant; any other value is returned unchanged. */
  function GetDayName(day: string): (r: string)
    ensures forall i :: 0 <= i < 7 && day == WeekDays[i] ==> r == DayNames[i]
    ensures day !in WeekDays ==> r == day
  {
    if day == "MONDAY" then "Lunes"
    else if day == "TUESDAY" then "Martes"
    else if day == "WEDNESDAY" then "Miércoles"
    else if day == "THURSDAY" then "Jueves"
    else if day == "FRIDAY" then "Viernes"
    else if day == "SATURDAY" then "Sábado"
    else if day == "SUNDAY" then "Domingo"
    else day
  }

  /** `businessHours.find(bh => bh.day === day)`: the first entry for `day`. */
  function FindHour(hours: seq<BusinessHour>, day: string): (r: Option<BusinessHour>)
    ensures r.None? <==> forall j :: 0 <= j < |hours| ==> hours[j].day != day
    ensures r.Some? ==> exists i :: 0 <= i < |hours| && hours[i] == r.value && r.value.day == day
                                    && forall j :: 0 <= j < i ==> hours[j].day != day
  {
    if hours == [] then None
    else if hours[0].day == day then Some(hours[0])
    else
      var r := FindHour(hours[1..], day);
      assert forall j :: 1 <= j < |hours| ==> hours[1..][j - 1] == hours[j];
      if r.Some? then
        var i :| 0 <= i < |hours[1..]| && hours[1..][i] == r.value && r.value.day == day
                 && forall j :: 0 <= j < i ==> hours[1..][j].day != day;
        assert hours[i + 1] == r.value;
        r
      else r
  }

  /** One row of the opening-hours table. */
  datatype DayStatus = DayStatus(dayName: string, isOpen: bool, openTime: Option<string>, closeTime: Option<string>)

  /**
   * One day's row: open with that entry's times when the day's entry is a working day, closed
   * and without times when it has no entry or a non-working one.
   */
  function DayStatusOf(hours: seq<BusinessHour>, day: string): (r: DayStatus)
    ensures r.dayName == GetDayName(day)
    ensures !r.isOpen ==> r.openTime.None? && r.closeTime.None?
    ensures r.isOpen ==> (exists j :: 0 <= j < |hours| && hours[j].day == day && hours[j].workingDay &&
                                 r.openTime == hours[j].openTime && r.closeTime == hours[j].closeTime)
    ensures (forall j :: 0 <= j < |hours| && hours[j].day == day ==> !hours[j].workingDay) ==> !r.isOpen
    ensures ((exists j :: 0 <= j < |hours| && hours[j].day == day) &&
             (forall j :: 0 <= j < |hours| && hours[j].day == day ==> hours[j].workingDay)) ==> r.isOpen
  {
    var h := FindHour(hours, day);
    if h.Some? && h.value.workingDay then DayStatus(GetDayName(day), true, h.value.openTime, h.value.closeTime)
    else DayStatus(GetDayName(day), false, None, None)
  }

  /**
   * `getAllDaysWithStatus`: with a company, seven rows from Monday to Sunday,
   * a day open when its first entry is a working day and then showing that
   * entry's times; closed days carry no times. Without a company, no rows.
   */
  function GetAllDaysWithStatus(company: Option<Company>): (r: seq<DayStatus>)
    ensures company.None? ==> r == []
    ensures company.Some? ==> |r| == 7
    ensures company.Some? ==> forall i :: 0 <= i < |r| ==>
      var h := FindHour(company.value.businessHours, WeekDays[i]);
      r[i].dayName == DayNames[i]
      && (r[i].isOpen <==> h.Some? && h.value.workingDay)
      && (r[i].isOpen ==> r[i].openTime == h.value.openTime && r[i].closeTime == h.value.closeTime)
      && (!r[i].isOpen ==> r[i].openTime.None? && r[i].closeTime.None?)
  {
    if company.None? then []
    else seq(7, i requires 0 <= i < 7 => DayStatusOf(company.value.businessHours, WeekDays[i]))
  }

  /** When the backend sends at most one entry per day, a day is open exactly when some entry for it is a working day. */
  lemma OpenIffSomeWorkingEntry(c: Company, i: int)
    requires 0 <= i < 7
    requires forall a, b :: 0 <= a < b < |c.businessHours| ==> c.businessHours[a].day != c.businessHours[b].day
    ensures GetAllDaysWithStatus(Some(c))[i].isOpen <==>
      exists j :: 0 <= j < |c.businessHours| && c.businessHours[j].day == WeekDays[i] && c.businessHours[j].workingDay
  {
    var h := FindHour(c.businessHours, WeekDays[i]);
    assert GetAllDaysWithStatus(Some(c))[i].isOpen <==> h.Some? && h.value.workingDay;
    FoundIsTheOnlyEntry(c.businessHours, WeekDays[i]);
  }

  /** With at most one entry per day, the entry `find` returns is working exactly when some entry for the day is. */
  lemma FoundIsTheOnlyEntry(hs: seq<BusinessHour>, day: string)
    requires forall a, b :: 0 <= a < b < |hs| ==> hs[a].day != hs[b].day
    ensures (FindHour(hs, day).Some? && FindHour(hs, day).value.workingDay) <==>
      exists j :: 0 <= j < |hs| && hs[j].day == day && hs[j].workingDay
  {
    var h := FindHour(hs, day);
    if exists j :: 0 <= j < |hs| && hs[j].day == day && hs[j].workingDay {
      var j :| 0 <= j < |hs| && hs[j].day == day && hs[j].workingDay;
      var k :| 0 <= k < |hs| && hs[k] == h.value && h.value.day == day
               && forall m :: 0 <= m < k ==> hs[m].day != day;
      assert !(j < k) && !(k < j);
    }
  }

  /** With two Monday entries, the first closed and the second working, Monday shows as closed: only the first entry counts. */
  lemma FirstEntryDecides()
    ensures !GetAllDaysWithStatus(Some(Company(1, None, "c", None, "d", None, "a", "p", 24, 0, 30, false, 0,
      [BusinessHour("MONDAY", false, None, None), BusinessHour("MONDAY", true, Some("09:00"), Some("18:00"))])))[0].isOpen
  {
    var hs := [BusinessHour("MONDAY", false, None, None), BusinessHour("MONDAY", true, Some("09:00"), Some("18:00"))];
    assert FindHour(hs, WeekDays[0]) == Some(hs[0]);
  }

  // ---------------------------------------------------------------- booking window

  datatype DateValidation = Valid | Invalid(message: string)

  function TooSoonMessage(minAdvanceDays: int): string {
    "Debes reservar con al menos " + IntToString(minAdvanceDays) + " día(s) de anticipación"
  }

  function TooFarMessage(maxAdvanceDays: int): string {
    "No puedes reservar con más de " + IntToString(maxAdvanceDays) + " días de anticipación"
  }

  /**
   * `isDateValid` on `today` and the chosen day, both as day numbers at
   * midnight: the whole days between them must lie in the company's window;
   * the lower bound is checked first. With no company loaded, any day goes.
   */
  function IsDateValid(company: Option<Company>, today: int, date: int): (r: DateValidation)
    ensures r.Valid? <==> company.None? || company.value.minAdvanceDays <= date - today <= company.value.maxAdvanceDays
    ensures company.Some? && date - today < company.value.minAdvanceDays ==> r == Invalid(TooSoonMessage(company.value.minAdvanceDays))
    ensures company.Some? && company.value.minAdvanceDays <= date - today && date - today > company.value.maxAdvanceDays ==>
      r == Invalid(TooFarMessage(company.value.maxAdvanceDays))
  {
    if company.None? then Valid
    else
      var diffDays := date - today;
      if diffDays < company.value.minAdvanceDays then Invalid(TooSoonMessage(company.value.minAdvanceDays))
      else if diffDays > company.value.maxAdvanceDays then Invalid(TooFarMessage(company.value.maxAdvanceDays))
      else Valid
  }

  /** The two rejections read differently, so the alert tells the user which bound was missed. */
  lemma RejectionsAreDistinct(min: int, max: int)
    ensures TooSoonMessage(min) != TooFarMessage(max)
  {
    assert TooSoonMessage(min)[0] == 'D' && TooFarMessage(max)[0] == 'N';
  }

  /**
   * Every day the picker offers for the company's window (offset `k` from
   * the first bookable day) passes the validation the screen applies.
   */
  lemma OfferedDaysAreValid(b: BackendCompany, today: int, k: int)
    requires var c := MapBackendToFrontend(b); 0 <= k <= c.maxAdvanceDays - c.minAdvanceDays
    ensures var c := MapBackendToFrontend(b);
      IsDateValid(Some(c), today, today + PickerWindow(Some(c)).0 + k) == Valid
  {
    PickerWindowOfMappedCompany(b);
  }

  // ---------------------------------------------------------------- selection state

  /** The booking tab's state: the chosen service, day and slot, and the slots loaded for that day. */
  class BookingSelection {
    const company: Option<Company>
    const today: int
    var selectedService: Option<Service>
    var selectedDate: Option<int>
    var selectedTimeSlot: Option<string>
    var availableSlots: seq<string>
    var loadingSlots: bool
    var slotsError: Option<string>

    constructor (company: Option<Company>, today: int)
      ensures this.company == company && this.today == today
      ensures selectedService.None? && selectedDate.None? && selectedTimeSlot.None?
      ensures availableSlots == [] && !loadingSlots && slotsError.None?
    {
      this.company := company;
      this.today := today;
      selectedService := None;
      selectedDate := None;
      selectedTimeSlot := None;
      availableSlots := [];
      loadingSlots := false;
      slotsError := None;
    }

    /** The slot picker is greyed out until both a service and a day are chosen. */
    predicate SlotPickerDisabled()
      reads this
    {
      selectedService.None? || selectedDate.None?
    }

    /** The booking form appears once a service, a day and a slot are all chosen. */
    predicate ShowsBookingForm()
      reads this
    {
      selectedService.Some? && selectedDate.Some? && Truthy(selectedTimeSlot)
    }

    /** `handleServiceSelect`: a new service starts the day and slot choice over. */
    method HandleServiceSelect(service: Service)
      modifies this
      ensures selectedService == Some(service)
      ensures selectedDate.None? && selectedTimeSlot.None? && availableSlots == [] && slotsError.None?
      ensures loadingSlots == old(loadingSlots)
      ensures SlotPickerDisabled() && !ShowsBookingForm()
    {
      selectedService := Some(service);
      selectedDate := None;
      selectedTimeSlot := None;
      availableSlots := [];
      slotsError := None;
    }

    /**
     * `fetchAvailability` once the backend has answered: the normalised
     * slots, or none and a message; an empty list is reported as an error.
     */
    method FetchAvailability(reply: AvailabilityReply)
      modifies this
      ensures !loadingSlots
      ensures var a := GetAvailability(reply);
        (a.success ==> availableSlots == a.availableSlots)
        && (a.success && a.availableSlots != [] ==> slotsError.None?)
        && (a.success && a.availableSlots == [] ==> slotsError == Some("No hay horarios disponibles para esta fecha"))
        && (!a.success ==> availableSlots == [] && slotsError == a.message)
      ensures selectedService == old(selectedService) && selectedDate == old(selectedDate)
      ensures selectedTimeSlot == old(selectedTimeSlot)
      ensures RenderBranch(false, loadingSlots, slotsError, availableSlots) == SlotList <==>
        reply.AvailabilityBody? && reply.success && reply.availableSlots != []
      ensures RenderBranch(false, loadingSlots, slotsError, availableSlots) != Empty
    {
      loadingSlots := true;
      slotsError := None;
      var a := GetAvailability(reply);
      if a.success {
        availableSlots := a.availableSlots;
        if |a.availableSlots| == 0 {
          slotsError := Some("No hay horarios disponibles para esta fecha");
        }
      } else {
        availableSlots := [];
        slotsError := Some(Or(a.message, "No hay horarios disponibles"));
      }
      loadingSlots := false;
    }

    /**
     * `handleDateSelect`: a day outside the window raises an alert and changes
     * nothing; a valid day is taken, the slot cleared, and the slots of that
     * day fetched when a service is chosen (`fetchedFor` is the service id
     * asked about, `reply` the backend's answer).
     */
    method HandleDateSelect(date: int, reply: AvailabilityReply) returns (alert: Option<string>, fetchedFor: Option<int>)
      modifies this
      ensures IsDateValid(company, today, date).Invalid? ==>
        alert == Some(IsDateValid(company, today, date).message) && fetchedFor.None?
        && selectedService == old(selectedService) && selectedDate == old(selectedDate)
        && selectedTimeSlot == old(selectedTimeSlot) && availableSlots == old(availableSlots)
        && slotsError == old(slotsError) && loadingSlots == old(loadingSlots)
      ensures IsDateValid(company, today, date).Valid? ==>
        alert.None? && selectedDate == Some(date) && selectedTimeSlot.None? && selectedService == old(selectedService)
      ensures fetchedFor.Some? <==> IsDateValid(company, today, date).Valid? && old(selectedService).Some?
      ensures fetchedFor.Some? ==> fetchedFor.value == old(selectedService).value.id && !loadingSlots
      ensures fetchedFor.Some? ==> var a := GetAvailability(reply);
        (a.success ==> availableSlots == a.availableSlots)
        && (a.success && a.availableSlots != [] ==> slotsError.None?)
        && (a.success && a.availableSlots == [] ==> slotsError == Some("No hay horarios disponibles para esta fecha"))
        && (!a.success ==> availableSlots == [] && slotsError == a.message)
      ensures IsDateValid(company, today, date).Valid? && old(selectedService).None? ==>
        slotsError.None? && availableSlots == old(availableSlots) && loadingSlots == old(loadingSlots)
    {
      alert := None;
      fetchedFor := None;
      var validation := IsDateValid(company, today, date);
      if validation.Invalid? {
        alert := Some(validation.message);
        return;
      }
      selectedDate := Some(date);
      selectedTimeSlot := None;
      slotsError := None;
      if selectedService.Some? {
        fetchedFor := Some(selectedService.value.id);
        FetchAvailability(reply);
      }
    }

    /** `handleTimeSlotSelect`: only the slot changes. */
    method HandleTimeSlotSelect(slot: string)
      modifies this
      ensures selectedTimeSlot == Some(slot)
      ensures selectedService == old(selectedService) && selectedDate == old(selectedDate)
      ensures availableSlots == old(availableSlots) && slotsError == old(slotsError) && loadingSlots == old(loadingSlots)
    {
      selectedTimeSlot := Some(slot);
    }
  }
}
