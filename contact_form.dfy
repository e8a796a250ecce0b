/** The simulated contact-form submission. The submit listener starts a chain
    of nested timers; each timer is modelled as a discrete step that fires
    the callback it holds. Which pending timer fires next is left open, so
    every property below holds for every order the timers could fire in. */
module ContactForm {

  /** Which step of the cycle is pending: none (`Idle`), the first timer
      that shows the success label (`Sending`), or the second timer that
      resets the form (`Sent`). */
  datatype Phase = Idle | Sending | Sent

  /** The text of the submit button's label. */
  datatype Label = SendLabel | SendingLabel | SentLabel

  function LabelText(l: Label): string {
    match l
    case SendLabel => "Send Message"
    case SendingLabel => "Sending..."
    case SentLabel => "Message Sent!"
  }

  const ThankYou: string := "Thank you for your message! I will get back to you soon."

  /** An appended confirmation node. Each holds one pending timer: the fade
      timer while it is visible, then the removal timer once it has faded. */
  datatype Notice = Notice(text: string, faded: bool)

  /** What happens to the form: a `submit` event reaching the listener (which
      the browser sends only after the form's fields pass validation), the firing of
      the cycle's pending timer, the firing of the pending timer of the
      notice at `index`, or the user typing `text` into field `index`. */
  datatype Event = Submit | CycleTimer | NoticeTimer(index: nat) | Edit(index: nat, text: string)

  /** The form's observable state: the cycle phase, the button's label and
      disabled flag, the field values with their markup defaults, and the
      confirmation notices appended to the form. */
  datatype FormState = FormState(
    phase: Phase, buttonLabel: Label, disabled: bool,
    fields: seq<string>, defaults: seq<string>, notices: seq<Notice>)

  /** The label each phase shows. */
  function LabelFor(p: Phase): Label {
    match p
    case Idle => SendLabel
    case Sending => SendingLabel
    case Sent => SentLabel
  }

  /** The button is disabled exactly while a cycle is in flight, and the
      label names the phase. */
  predicate Valid(s: FormState) {
    s.disabled == (s.phase != Idle) && s.buttonLabel == LabelFor(s.phase) && |s.fields| == |s.defaults|
  }

  /** The page as loaded: no cycle, an enabled button, the fields at their
      defaults and no notice. */
  function Initial(defaults: seq<string>): (s: FormState)
    ensures Valid(s) && s.phase == Idle && s.notices == []
  {
    FormState(Idle, SendLabel, false, defaults, defaults, [])
  }

  /** One event. A disabled submit button cannot submit the form, so a
      submit attempt then does nothing. */
  function Step(s: FormState, e: Event): FormState {
    match e
    case Submit =>
      if s.disabled then s else s.(phase := Sending, buttonLabel := SendingLabel, disabled := true)
    case CycleTimer =>
      (match s.phase
       case Idle => s
       case Sending => s.(phase := Sent, buttonLabel := SentLabel)
       case Sent =>
         s.(phase := Idle, fields := s.defaults, buttonLabel := SendLabel, disabled := false,
            notices := s.notices + [Notice(ThankYou, false)]))
    case NoticeTimer(i) =>
      if i >= |s.notices| then s
      else if !s.notices[i].faded then s.(notices := s.notices[i := s.notices[i].(faded := true)])
      else s.(notices := s.notices[..i] + s.notices[i + 1..])
    case Edit(i, text) =>
      if i < |s.fields| then s.(fields := s.fields[i := text]) else s
  }

  /** The state after the events `es`, in order. */
  function Run(s: FormState, es: seq<Event>): FormState
    decreases |es|
  {
    if es == [] then s else Step(Run(s, es[..|es| - 1]), es[|es| - 1])
  }

  /** How many of `es` are firings of the cycle timer. */
  function CycleTimers(es: seq<Event>): nat
    decreases |es|
  {
    if es == [] then 0
    else CycleTimers(es[..|es| - 1]) + (if es[|es| - 1] == CycleTimer then 1 else 0)
  }

  lemma StepKeepsValid(s: FormState, e: Event)
    requires Valid(s)
    ensures Valid(Step(s, e))
  {
  }

  lemma {:induction false} RunKeepsValid(s: FormState, es: seq<Event>)
    requires Valid(s)
    ensures Valid(Run(s, es))
    decreases |es|
  {
    if es != [] {
      RunKeepsValid(s, es[..|es| - 1]);
      StepKeepsValid(Run(s, es[..|es| - 1]), es[|es| - 1]);
    }
  }

  /** While a cycle is in flight a submit attempt changes nothing: at most
      one cycle runs at a time. */
  lemma SubmitBlockedInFlight(s: FormState)
    requires Valid(s) && s.phase != Idle
    ensures Step(s, Submit) == s
  {
  }

  /** A full cycle from an idle form: submit shows 'Sending...' and disables
      the button; the first timer shows 'Message Sent!' and keeps it
      disabled; the second resets the fields, restores the label, enables
      the button and appends exactly one visible notice. */
  lemma Cycle(s: FormState)
    requires Valid(s) && s.phase == Idle
    ensures LabelText(Step(s, Submit).buttonLabel) == "Sending..." && Step(s, Submit).disabled
    ensures LabelText(Step(Step(s, Submit), CycleTimer).buttonLabel) == "Message Sent!"
    ensures Step(Step(s, Submit), CycleTimer).disabled
    ensures Step(Step(Step(s, Submit), CycleTimer), CycleTimer)
            == s.(fields := s.defaults, notices := s.notices + [Notice(ThankYou, false)])
    ensures LabelText(Step(Step(Step(s, Submit), CycleTimer), CycleTimer).buttonLabel) == "Send Message"
  {
  }

  /** From a submit until the cycle timer has fired twice, whatever else
      happens (further submit attempts, typing, notice timers), the button
      stays disabled and the phase is the one those firings reached. */
  lemma {:induction false} DisabledUntilReset(s: FormState, es: seq<Event>)
    requires Valid(s) && s.phase == Sending
    requires CycleTimers(es) < 2
    ensures Run(s, es).disabled
    ensures Run(s, es).phase == (if CycleTimers(es) == 0 then Sending else Sent)
    decreases |es|
  {
    if es != [] {
      DisabledUntilReset(s, es[..|es| - 1]);
      RunKeepsValid(s, es[..|es| - 1]);
    }
  }

  /** Only the reset step adds a notice, and it adds exactly one, at the end. */
  lemma NoticeAddedOnlyByReset(s: FormState, e: Event)
    requires |Step(s, e).notices| > |s.notices|
    ensures e == CycleTimer && s.phase == Sent
    ensures Step(s, e).notices == s.notices + [Notice(ThankYou, false)]
  {
  }

  /** A visible notice's two timers fade it and then remove it, leaving the
      other notices and everything else as they were. */
  lemma NoticeLifecycle(s: FormState, i: nat)
    requires i < |s.notices| && !s.notices[i].faded
    ensures Step(s, NoticeTimer(i)).notices[i].faded
    ensures Step(Step(s, NoticeTimer(i)), NoticeTimer(i))
            == s.(notices := s.notices[..i] + s.notices[i + 1..])
  {
  }

  /** The contact form as the page holds it: the button's label and
      disabled flag, the field values and the appended notices are updated
      in place; `phase` records which cycle timer is pending. */
  class FormController {
    var phase: Phase
    var buttonLabel: Label
    var disabled: bool
    var fields: seq<string>
    const defaults: seq<string>
    var notices: seq<Notice>

    function State(): FormState
      reads this
    {
      FormState(phase, buttonLabel, disabled, fields, defaults, notices)
    }

    constructor (markupDefaults: seq<string>)
      ensures State() == Initial(markupDefaults)
    {
      phase, buttonLabel, disabled := Idle, SendLabel, false;
      fields, defaults, notices := markupDefaults, markupDefaults, [];
    }

    /** The submit listener, when the button lets the form submit: label
        'Sending...', disable, and schedule the first timer. */
    method Submit()
      modifies this
      ensures State() == Step(old(State()), Event.Submit)
    {
      if disabled {
        return;
      }
      buttonLabel := SendingLabel;
      disabled := true;
      phase := Sending;
    }

    /** The pending cycle timer fires: the first shows 'Message Sent!' and
        schedules the second; the second resets the form, restores the
        button and appends a notice with its fade timer. */
    method FireCycleTimer()
      modifies this
      ensures State() == Step(old(State()), CycleTimer)
      ensures old(Valid(State())) ==> Valid(State())
    {
      match phase
      case Idle =>
      case Sending =>
        buttonLabel := SentLabel;
        phase := Sent;
      case Sent =>
        fields := defaults;
        buttonLabel := SendLabel;
        disabled := false;
        notices := notices + [Notice(ThankYou, false)];
        phase := Idle;
    }

    /** The pending timer of the notice at `i` fires: the fade timer sets
        its opacity to 0 and schedules removal; the removal timer removes
        the node. */
    method FireNoticeTimer(i: nat)
      modifies this
      ensures State() == Step(old(State()), NoticeTimer(i))
    {
      if i < |notices| {
        if !notices[i].faded {
          notices := notices[i := notices[i].(faded := true)];
        } else {
          notices := notices[..i] + notices[i + 1..];
        }
      }
    }
  }
}
