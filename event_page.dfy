/**
 * The event details page (event/page.tsx): the class-name helper `cx`,
 * the capacity gauge, the session-type labels, and the two modals — the
 * registration wizard (form, then payment, then success) and the
 * communication-submission modal.
 */
module EventPage {
  import opened Optional
  import opened Text
  import opened Lists

  // ---------------------------------------------------------------------
  // cx
  // ---------------------------------------------------------------------

  /** An argument of `cx`: a class string, or one of `false`, `null`, `undefined`. */
  datatype ClassArg = Name(s: string) | Falsy

  /** `Boolean(c)`: a non-empty string. */
  predicate Truthy(c: ClassArg) {
    c.Name? && c.s != ""
  }

  /** The strings of arguments that are all class strings. */
  function Names(cs: seq<ClassArg>): (r: seq<string>)
    requires forall i | 0 <= i < |cs| :: cs[i].Name?
    ensures |r| == |cs|
    ensures forall i | 0 <= i < |cs| :: r[i] == cs[i].s
  {
    seq(|cs|, i requires 0 <= i < |cs| => cs[i].s)
  }

  /** `classes.filter(Boolean).join(" ")`. */
  function Cx(cs: seq<ClassArg>): (r: string)
    ensures r == "" <==> forall i | 0 <= i < |cs| :: !Truthy(cs[i])
  {
    var kept := Filter(cs, Truthy);
    KeptNames(cs);
    Join(Names(kept), " ")
  }

  /** The joined names are empty exactly when no argument is truthy. */
  lemma KeptNames(cs: seq<ClassArg>)
    ensures var kept := Filter(cs, Truthy);
      Join(Names(kept), " ") == "" <==> forall i | 0 <= i < |cs| :: !Truthy(cs[i])
  {
    var kept := Filter(cs, Truthy);
    var names := Names(kept);
    FilterMembers(cs, Truthy);
    if kept != [] {
      assert Truthy(kept[0]);
      JoinNonEmpty(names);
    } else {
      assert forall i | 0 <= i < |cs| :: cs[i] in cs;
    }
  }

  lemma JoinNonEmpty(names: seq<string>)
    requires |names| >= 1 && |names[0]| >= 1
    ensures Join(names, " ") != ""
  {
    assert SumOfLengths(names) >= |names[0]|;
  }

  /**
   * When no class string holds a space, splitting the result of `cx` on
   * single spaces gives back exactly the truthy class strings, in the
   * order they were passed: nothing falsy gets in, nothing truthy is lost,
   * and they are separated by single spaces.
   */
  lemma CxRoundTrip(cs: seq<ClassArg>)
    requires forall i | 0 <= i < |cs| :: cs[i].Name? ==> ' ' !in cs[i].s
    requires exists i | 0 <= i < |cs| :: Truthy(cs[i])
    ensures SplitSpace(Cx(cs)) == Names(Filter(cs, Truthy))
  {
    KeptHaveNoSpace(cs);
    KeptNames(cs);
    SplitJoin(Names(Filter(cs, Truthy)));
  }

  /** The kept class strings hold no space when none of the arguments does. */
  lemma KeptHaveNoSpace(cs: seq<ClassArg>)
    requires forall i | 0 <= i < |cs| :: cs[i].Name? ==> ' ' !in cs[i].s
    ensures var names := Names(Filter(cs, Truthy)); forall j | 0 <= j < |names| :: ' ' !in names[j]
  {
    var kept := Filter(cs, Truthy);
    FilterMembers(cs, Truthy);
    forall j | 0 <= j < |kept| ensures ' ' !in kept[j].s {
      assert kept[j] in cs;
    }
  }

  // ---------------------------------------------------------------------
  // formatCapacity
  // ---------------------------------------------------------------------

  datatype Capacity = Capacity(pct: int, caption: string)

  /** `Math.round(100 * current / d)` for a positive `d`: the nearest integer, halves rounded up. */
  function RoundedPercent(current: int, d: int): (r: int)
    requires d >= 1
  {
    (200 * current + d) / (2 * d)
  }

  /** The rounded percentage is within one half of the exact ratio `100 * current / d`. */
  lemma RoundedPercentNearest(current: int, d: int)
    requires d >= 1
    ensures 2 * d * RoundedPercent(current, d) <= 200 * current + d
    ensures 200 * current + d < 2 * d * RoundedPercent(current, d) + 2 * d
  {
    var x := 200 * current + d;
    var y := 2 * d;
    var q := x / y;
    assert x == y * q + x % y;
    assert 0 <= x % y < y;
  }

  /**
   * `formatCapacity(current, max)`: a divisor of at least 1, the rounded
   * percentage capped at 100, and the label "current/max" written with
   * the original `max`.
   */
  function FormatCapacity(current: int, max: int): (r: Capacity)
    ensures r.pct <= 100
    ensures var d := if max < 1 then 1 else max; r.pct == if RoundedPercent(current, d) < 100 then RoundedPercent(current, d) else 100
    ensures r.caption == IntToDecimal(current) + "/" + IntToDecimal(max)
  {
    var d := if max < 1 then 1 else max;
    var rounded := RoundedPercent(current, d);
    Capacity(if rounded < 100 then rounded else 100, IntToDecimal(current) + "/" + IntToDecimal(max))
  }

  /**
   * For a non-negative count the gauge is between 0 and 100, it is full
   * once the count reaches the capacity, and it is empty for no one.
   */
  lemma CapacityBounds(current: int, max: int)
    requires current >= 0
    ensures 0 <= FormatCapacity(current, max).pct <= 100
    ensures current >= max && current >= 1 ==> FormatCapacity(current, max).pct == 100
    ensures current == 0 ==> FormatCapacity(current, max).pct == 0
  {
    var d := if max < 1 then 1 else max;
    var r := RoundedPercent(current, d);
    RoundedPercentNearest(current, d);
    if r < 0 {
      ScaleMonotone(2 * d, r + 1, 0);
      assert false;
    }
    if current >= max && current >= 1 && r < 100 {
      assert current >= d;
      ScaleMonotone(2 * d, r + 1, 100);
      ScaleMonotone(200, d, current);
      assert false;
    }
    if current == 0 && r > 0 {
      ScaleMonotone(2 * d, 1, r);
      assert false;
    }
  }

  lemma ScaleMonotone(k: int, a: int, b: int)
    requires k >= 1 && a <= b
    ensures k * a <= k * b
  {
  }

  /** A zero or negative capacity divides like a capacity of 1; only the label keeps the original value. */
  lemma NonPositiveMaxDividesByOne(current: int, max: int)
    requires max <= 0
    ensures FormatCapacity(current, max).pct == FormatCapacity(current, 1).pct
  {
  }

  /** The label has exactly one '/', so it determines the two numbers it was written from. */
  lemma {:induction false} LabelDetermines(c1: int, m1: int, c2: int, m2: int)
    requires FormatCapacity(c1, m1).caption == FormatCapacity(c2, m2).caption
    ensures c1 == c2 && m1 == m2
  {
    var a1, b1 := IntToDecimal(c1), IntToDecimal(m1);
    var a2, b2 := IntToDecimal(c2), IntToDecimal(m2);
    var s := a1 + "/" + b1;
    assert s == a2 + "/" + b2;
    SlashAt(a1, b1);
    SlashAt(a2, b2);
    assert s[..|a1|] == a1 && s[|a1| + 1..] == b1;
    assert s[..|a2|] == a2 && s[|a2| + 1..] == b2;
    IntToDecimalValue(c1);
    IntToDecimalValue(c2);
    IntToDecimalValue(m1);
    IntToDecimalValue(m2);
  }

  /** In `a + "/" + b` with no '/' in `a`, the first '/' is right after `a`. */
  lemma SlashAt(a: string, b: string)
    requires '/' !in a
    ensures var s := a + "/" + b; s[|a|] == '/' && forall j | 0 <= j < |a| :: s[j] != '/'
  {
    var s := a + "/" + b;
    forall j | 0 <= j < |a| ensures s[j] != '/' {
      assert s[j] == a[j];
    }
  }

  // ---------------------------------------------------------------------
  // sessionTypeLabel
  // ---------------------------------------------------------------------

  datatype SessionType = Keynote | Panel | Workshop | Break

  /** `sessionTypeLabel(type)`. */
  function SessionTypeLabel(t: SessionType): (caption: string)
    ensures caption in {"Keynote", "Panel", "Workshop", "Break"}
  {
    match t
    case Keynote => "Keynote"
    case Panel => "Panel"
    case Workshop => "Workshop"
    case Break => "Break"
  }

  /** Different session types never share a label. */
  lemma SessionTypeLabelInjective(s: SessionType, t: SessionType)
    ensures SessionTypeLabel(s) == SessionTypeLabel(t) <==> s == t
  {
  }

  // ---------------------------------------------------------------------
  // The registration and submission modals
  // ---------------------------------------------------------------------

  datatype RegistrationStep = Form | Payment | Success
  datatype PaymentMethod = Card | Transfer | Onsite
  datatype TicketType = Student | Regular

  /** The modal state of the page component. */
  class EventDetails {
    var showRegister: bool
    var showSubmit: bool
    var step: RegistrationStep
    var payment: Option<PaymentMethod>
    var ticket: TicketType

    /**
     * A hidden wizard rests at the form with no method; the form step never
     * carries a method; the success step is reached only with one.
     */
    ghost predicate Valid()
      reads this
    {
      && (!showRegister ==> step == Form && payment == None)
      && (step == Form ==> payment == None)
      && (step == Success ==> payment.Some?)
    }

    /** Both modals closed, step "form", no method, a regular ticket. */
    constructor ()
      ensures Valid()
      ensures !showRegister && !showSubmit && step == Form && payment == None && ticket == Regular
    {
      showRegister := false;
      showSubmit := false;
      step := Form;
      payment := None;
      ticket := Regular;
    }

    /** `handleRegister`: the wizard opens at the form with no method chosen. */
    method HandleRegister()
      requires Valid()
      modifies this`showRegister, this`step, this`payment
      ensures Valid()
      ensures showRegister && step == Form && payment == None
    {
      step := Form;
      payment := None;
      showRegister := true;
    }

    /** The overlay, the X button, Cancel and Close: hide the wizard, back to the form, no method. */
    method CloseRegister()
      requires Valid()
      modifies this`showRegister, this`step, this`payment
      ensures Valid()
      ensures !showRegister && step == Form && payment == None
    {
      showRegister := false;
      step := Form;
      payment := None;
    }

    /** Continue, in the footer of the form step. */
    method Continue()
      requires Valid() && showRegister && step == Form
      modifies this`step
      ensures Valid()
      ensures step == Payment && payment == None
    {
      step := Payment;
    }

    /** A ticket card on the form step. */
    method SelectTicket(t: TicketType)
      requires Valid() && showRegister && step == Form
      modifies this`ticket
      ensures Valid() && ticket == t
    {
      ticket := t;
    }

    /** A payment card on the payment step. */
    method SelectMethod(m: PaymentMethod)
      requires Valid() && showRegister && step == Payment
      modifies this`payment
      ensures Valid() && payment == Some(m)
    {
      payment := Some(m);
    }

    /** Back, in the footer of the payment step: to the form, forgetting the method. */
    method Back()
      requires Valid() && showRegister && step == Payment
      modifies this`step, this`payment
      ensures Valid()
      ensures step == Form && payment == None
    {
      step := Form;
      payment := None;
    }

    /** Confirm: disabled (nothing happens) without a method; otherwise on to success. */
    method Confirm()
      requires Valid() && showRegister && step == Payment
      modifies this`step
      ensures Valid()
      ensures step == if payment.Some? then Success else Payment
    {
      if payment.Some? {
        step := Success;
      }
    }

    /** `handleSubmitCommunication`: the button is there only while the call for papers is open. */
    method OpenSubmit(cfpOpen: bool)
      modifies this`showSubmit
      ensures showSubmit == (old(showSubmit) || cfpOpen)
    {
      if cfpOpen {
        showSubmit := true;
      }
    }

    /** The overlay, the X button, Cancel, and Submit (after its alert) all hide the submission modal. */
    method CloseSubmit()
      modifies this`showSubmit
      ensures !showSubmit
    {
      showSubmit := false;
    }
  }
}
