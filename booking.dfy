/**
 * The consultation booking screen: a three-step wizard (choose a service,
 * fill in the details, see the confirmation) over one booking form and the
 * month whose days are on offer.
 *
 * The wall clock is not read here: the month and year "today" is passed in
 * where the screen asks the browser for it.
 */
module Booking {
  import opened Wrappers

  datatype ServiceType = Zoom | Voice

  datatype Service = Service(id: string, name: string, serviceType: ServiceType,
                             duration: string, description: string, price: string)

  /** The two services on offer (their icons are not modelled). */
  const Services: seq<Service> := [
    Service("zoom-assessment", "Zoom Call Assessment", Zoom, "1 hr",
            "Professional mental wellness assessment via Zoom video call", ""),
    Service("voice-assessment", "Voice Call Assessment", Voice, "1 hr",
            "Professional mental wellness assessment via voice call", "")
  ]

  /** The bookable times of day. */
  const TimeSlots: seq<string> := [
    "09:00 AM", "10:00 AM", "11:00 AM", "12:00 PM", "01:00 PM",
    "02:00 PM", "03:00 PM", "04:00 PM", "05:00 PM", "06:00 PM"
  ]

  datatype Step = ServiceStep | DetailsStep | ConfirmationStep

  /** The form; an empty string is a field not filled in. */
  datatype BookingForm = BookingForm(name: string, email: string, phone: string,
                                     selectedDate: string, selectedTime: string,
                                     selectedService: Option<Service>)

  /** The text fields of the form, as `handleInputChange` names them. */
  datatype Field = NameField | EmailField | PhoneField | DateField | TimeField

  /** A calendar month: `month` counts from 0 (January) as `Date.getMonth` does. */
  datatype MonthYear = MonthYear(month: int, year: int)

  /** What the e-mail trigger receives: the form, plus the service's name
      (absent when no service is chosen), the date and the time. */
  datatype BookingPayload = BookingPayload(form: BookingForm, service: Option<string>,
                                           date: string, time: string)

  const EmptyForm: BookingForm := BookingForm("", "", "", "", "", None)

  /** The value of one text field. */
  function FieldOf(form: BookingForm, f: Field): string
  {
    match f
    case NameField => form.name
    case EmailField => form.email
    case PhoneField => form.phone
    case DateField => form.selectedDate
    case TimeField => form.selectedTime
  }

  /** The submit guard: name, e-mail, date and time are all filled in. */
  predicate SubmitReady(form: BookingForm)
  {
    form.name != [] && form.email != [] && form.selectedDate != [] && form.selectedTime != []
  }

  /** The Confirm button's `disabled` expression. */
  predicate ConfirmDisabled(form: BookingForm)
  {
    form.name == [] || form.email == [] || form.selectedDate == [] || form.selectedTime == []
  }

  /** The Confirm button is disabled exactly when a submit would be refused,
      and the guard asks nothing of the phone number or the service. */
  lemma ConfirmDisabledIffNotReady(form: BookingForm)
    ensures ConfirmDisabled(form) <==> !SubmitReady(form)
    ensures forall p, s :: SubmitReady(form) <==> SubmitReady(form.(phone := p, selectedService := s))
  {
  }

  /** The data handed to the e-mail trigger for a confirmed form. */
  function PayloadOf(form: BookingForm): (p: BookingPayload)
    ensures p.form == form && p.date == form.selectedDate && p.time == form.selectedTime
    ensures p.service.Some? <==> form.selectedService.Some?
    ensures form.selectedService.Some? ==> p.service.value == form.selectedService.value.name
  {
    BookingPayload(form, if form.selectedService.Some? then Some(form.selectedService.value.name) else None,
                   form.selectedDate, form.selectedTime)
  }

  /** The month after `m`: December is followed by January of the next year. */
  function NextMonth(m: MonthYear): MonthYear
  {
    if m.month == 11 then MonthYear(0, m.year + 1) else MonthYear(m.month + 1, m.year)
  }

  predicate ValidMonth(m: MonthYear)
  {
    0 <= m.month < 12
  }

  /** `getAvailableMonths` with today's month passed in: the six months
      starting with the current one. Each is computed, as the source does,
      by letting the month index run past 11 and normalising it to a month
      and a year. */
  method GetAvailableMonths(today: MonthYear) returns (months: seq<MonthYear>)
    requires ValidMonth(today)
    ensures |months| == 6
    ensures months[0] == today
    ensures forall k :: 0 <= k < |months| ==> ValidMonth(months[k])
    ensures forall k :: 0 <= k < |months| - 1 ==> months[k + 1] == NextMonth(months[k])
  {
    months := [];
    var currentYear := today.year;
    var currentMonth := today.month;
    for i := 0 to 6
      invariant |months| == i
      invariant i > 0 ==> months[0] == today
      invariant i > 0 ==> months[i - 1] == MonthYear((currentMonth + i - 1) % 12, currentYear + (currentMonth + i - 1) / 12)
      invariant forall k :: 0 <= k < i ==> ValidMonth(months[k])
      invariant forall k :: 0 <= k < i - 1 ==> months[k + 1] == NextMonth(months[k])
    {
      var index := currentMonth + i;
      var month := MonthYear(index % 12, currentYear + index / 12);
      months := months + [month];
    }
  }

  /** The booking screen's state. */
  class BookingScreen {
    var currentStep: Step
    var bookingForm: BookingForm
    var selectedMonth: MonthYear

    /** The month on display is a real month, and the confirmation step is
        reached only with a form that passes the submit guard. */
    ghost predicate Valid()
      reads this
    {
      ValidMonth(selectedMonth) && (currentStep == ConfirmationStep ==> SubmitReady(bookingForm))
    }

    /** A fresh screen: the service step, an empty form, and today's month. */
    constructor(today: MonthYear)
      requires ValidMonth(today)
      ensures Valid()
      ensures currentStep == ServiceStep && bookingForm == EmptyForm && selectedMonth == today
    {
      currentStep := ServiceStep;
      bookingForm := EmptyForm;
      selectedMonth := today;
    }

    /** `handleServiceSelect`: record the service and move on to the details. */
    method ServiceSelect(service: Service)
      requires Valid() && currentStep == ServiceStep
      modifies this
      ensures Valid()
      ensures currentStep == DetailsStep
      ensures bookingForm.selectedService == Some(service)
      ensures forall f :: FieldOf(bookingForm, f) == FieldOf(old(bookingForm), f)
      ensures selectedMonth == old(selectedMonth)
    {
      bookingForm := bookingForm.(selectedService := Some(service));
      currentStep := DetailsStep;
    }

    /** `handleInputChange`: set one text field, leave everything else. */
    method InputChange(field: Field, value: string)
      requires Valid() && currentStep == DetailsStep
      modifies this
      ensures Valid()
      ensures FieldOf(bookingForm, field) == value
      ensures forall f :: f != field ==> FieldOf(bookingForm, f) == FieldOf(old(bookingForm), f)
      ensures bookingForm.selectedService == old(bookingForm.selectedService)
      ensures currentStep == old(currentStep) && selectedMonth == old(selectedMonth)
    {
      match field
      case NameField => bookingForm := bookingForm.(name := value);
      case EmailField => bookingForm := bookingForm.(email := value);
      case PhoneField => bookingForm := bookingForm.(phone := value);
      case DateField => bookingForm := bookingForm.(selectedDate := value);
      case TimeField => bookingForm := bookingForm.(selectedTime := value);
    }

    /** `handleDateSelect`: set the date only. */
    method DateSelect(date: string)
      requires Valid() && currentStep == DetailsStep
      modifies this
      ensures Valid()
      ensures bookingForm.selectedDate == date
      ensures forall f :: f != DateField ==> FieldOf(bookingForm, f) == FieldOf(old(bookingForm), f)
      ensures bookingForm.selectedService == old(bookingForm.selectedService)
      ensures currentStep == old(currentStep) && selectedMonth == old(selectedMonth)
    {
      bookingForm := bookingForm.(selectedDate := date);
    }

    /** `handleMonthSelect`: show another month and forget the chosen date,
        which belonged to the month shown before. */
    method MonthSelect(month: int, year: int)
      requires Valid() && currentStep == DetailsStep
      requires ValidMonth(MonthYear(month, year))
      modifies this
      ensures Valid()
      ensures selectedMonth == MonthYear(month, year)
      ensures bookingForm.selectedDate == []
      ensures forall f :: f != DateField ==> FieldOf(bookingForm, f) == FieldOf(old(bookingForm), f)
      ensures bookingForm.selectedService == old(bookingForm.selectedService)
      ensures currentStep == old(currentStep)
    {
      selectedMonth := MonthYear(month, year);
      bookingForm := bookingForm.(selectedDate := "");
    }

    /** `handleTimeSelect`: set the time only; the page offers only the listed slots. */
    method TimeSelect(time: string)
      requires Valid() && currentStep == DetailsStep && time in TimeSlots
      modifies this
      ensures Valid()
      ensures bookingForm.selectedTime == time
      ensures forall f :: f != TimeField ==> FieldOf(bookingForm, f) == FieldOf(old(bookingForm), f)
      ensures bookingForm.selectedService == old(bookingForm.selectedService)
      ensures currentStep == old(currentStep) && selectedMonth == old(selectedMonth)
    {
      bookingForm := bookingForm.(selectedTime := time);
    }

    /** The details step's Back button: return to the service list, keeping the form. */
    method BackToService()
      requires Valid() && currentStep == DetailsStep
      modifies this
      ensures Valid()
      ensures currentStep == ServiceStep
      ensures bookingForm == old(bookingForm) && selectedMonth == old(selectedMonth)
    {
      currentStep := ServiceStep;
    }

    /** `handleSubmit`. With the required fields filled in, the e-mail
        trigger (when the parent passed one) is called once with the booking
        data, returned here, and the step becomes the confirmation; otherwise
        nothing changes and nothing is sent. The form is never changed. */
    method Submit(hasEmailTrigger: bool) returns (emailed: Option<BookingPayload>)
      requires Valid() && currentStep == DetailsStep
      modifies this
      ensures Valid()
      ensures SubmitReady(old(bookingForm)) ==> currentStep == ConfirmationStep
      ensures !SubmitReady(old(bookingForm)) ==> currentStep == old(currentStep)
      ensures emailed.Some? <==> SubmitReady(old(bookingForm)) && hasEmailTrigger
      ensures emailed.Some? ==> emailed.value == PayloadOf(old(bookingForm))
      ensures bookingForm == old(bookingForm) && selectedMonth == old(selectedMonth)
    {
      emailed := None;
      if bookingForm.name != [] && bookingForm.email != [] && bookingForm.selectedDate != [] && bookingForm.selectedTime != [] {
        if hasEmailTrigger {
          emailed := Some(PayloadOf(bookingForm));
        }
        currentStep := ConfirmationStep;
      }
    }

    /** The confirmation step's "Return to Assessment" button: hands the
        confirmed form to the parent (which then closes the screen). */
    method ReturnToAssessment() returns (booking: BookingForm)
      requires Valid() && currentStep == ConfirmationStep
      ensures booking == bookingForm && SubmitReady(booking)
    {
      booking := bookingForm;
    }
  }

  /** A service step followed by a submit of a form with the four required
      fields reaches the confirmation with exactly those fields. */
  method BookingWalkthrough(today: MonthYear, name: string, email: string, date: string, time: string)
    returns (screen: BookingScreen, emailed: Option<BookingPayload>)
    requires ValidMonth(today)
    requires name != [] && email != [] && date != [] && time in TimeSlots
    ensures screen.currentStep == ConfirmationStep
    ensures emailed.Some? && emailed.value.form == BookingForm(name, email, "", date, time, Some(Services[0]))
    ensures emailed.value.service == Some(Services[0].name)
  {
    screen := new BookingScreen(today);
    screen.ServiceSelect(Services[0]);
    assert FieldOf(screen.bookingForm, PhoneField) == "";
    screen.InputChange(NameField, name);
    assert FieldOf(screen.bookingForm, PhoneField) == "";
    screen.InputChange(EmailField, email);
    assert FieldOf(screen.bookingForm, NameField) == name;
    assert FieldOf(screen.bookingForm, PhoneField) == "";
    screen.DateSelect(date);
    assert FieldOf(screen.bookingForm, NameField) == name;
    assert FieldOf(screen.bookingForm, EmailField) == email;
    assert FieldOf(screen.bookingForm, PhoneField) == "";
    screen.TimeSelect(time);
    assert FieldOf(screen.bookingForm, NameField) == name;
    assert FieldOf(screen.bookingForm, EmailField) == email;
    assert FieldOf(screen.bookingForm, PhoneField) == "";
    assert FieldOf(screen.bookingForm, DateField) == date;
    emailed := screen.Submit(true);
  }
}
