/** The "Contact Agent" enquiry form (pages/ContactAgent.js). */
module ContactAgent {
  import opened Wrappers
  import opened Text
  import opened Validation
  import opened Ui

  // ------------------------------------------------ the patterns

  /** `/^[0-9]{10}$/.test(phone)`: exactly ten characters, each a decimal digit, nothing trimmed. */
  predicate ValidPhone(phone: string) {
    |phone| == 10 && AllDigits(phone)
  }

  /** The first '@' at or after index `k`, or `|s|` when there is none. */
  function FirstAtSign(s: string, k: nat): (r: nat)
    requires k <= |s|
    ensures k <= r <= |s|
    ensures r < |s| ==> s[r] == '@'
    ensures forall i :: k <= i < r ==> s[i] != '@'
    decreases |s| - k
  {
    if k == |s| then |s| else if s[k] == '@' then k else FirstAtSign(s, k + 1)
  }

  /** The last '.' at or before index `k`, or -1 when there is none. */
  function LastDot(s: string, k: int): (r: int)
    requires -1 <= k < |s|
    ensures -1 <= r <= k
    ensures r >= 0 ==> s[r] == '.'
    ensures forall j :: r < j <= k ==> s[j] != '.'
    decreases k + 1
  {
    if k < 0 then -1 else if s[k] == '.' then k else LastDot(s, k - 1)
  }

  /**
   * `/^\S+@\S+\.\S+$/.test(email)`, decided the way a backtracking matcher
   * settles it: the earliest '@' that leaves a non-empty name, the latest '.'
   * that leaves a non-empty ending, and at least one character between them.
   */
  predicate MatchesEmailPattern(email: string) {
    |email| >= 2 && NoSpace(email) && FirstAtSign(email, 1) + 1 < LastDot(email, |email| - 2)
  }

  /** What the pattern describes: no white space, and `name@domain.end` with all three parts non-empty. */
  ghost predicate EmailShape(email: string) {
    NoSpace(email)
    && exists i, j :: 1 <= i && i + 1 < j && j + 1 < |email| && email[i] == '@' && email[j] == '.'
  }

  lemma {:induction false} EmailPatternMeaning(email: string)
    ensures MatchesEmailPattern(email) <==> EmailShape(email)
  {
    if MatchesEmailPattern(email) {
      var i := FirstAtSign(email, 1);
      var j := LastDot(email, |email| - 2);
      assert 1 <= i && i + 1 < j && j + 1 < |email| && email[i] == '@' && email[j] == '.';
    }
    if EmailShape(email) {
      var i, j :| 1 <= i && i + 1 < j && j + 1 < |email| && email[i] == '@' && email[j] == '.';
      assert FirstAtSign(email, 1) <= i;
      assert LastDot(email, |email| - 2) >= j;
    }
  }

  /** `email.trim()` non-empty and the pattern matching. */
  predicate ValidEmail(email: string) {
    !IsBlank(email) && MatchesEmailPattern(email)
  }

  /** The blank test adds nothing to the pattern: an address is valid exactly when it has the shape. */
  lemma {:induction false} ValidEmailIffShape(email: string)
    ensures ValidEmail(email) <==> EmailShape(email)
  {
    EmailPatternMeaning(email);
    if MatchesEmailPattern(email) {
      assert Trim(email) == email;
    }
  }

  /** A plain address passes. */
  lemma {:induction false} PlainEmailAccepted()
    ensures ValidEmail("a@b.co")
  {
    var e := "a@b.co";
    VisibleIsNoSpace(e);
    assert |e| == 6 && e[1] == '@' && e[3] == '.';
    ValidEmailIffShape(e);
  }

  /** An address with a space in it does not. */
  lemma {:induction false} SpacedEmailRejected()
    ensures !ValidEmail("a b@c.d")
  {
    ValidEmailIffShape("a b@c.d");
    assert IsSpace("a b@c.d"[1]);
  }

  // ------------------------------------------------ validate

  datatype ContactForm = ContactForm(buyerName: string, phone: string, email: string, message: string, propertyId: JsNumber)

  /** Which of the four checks pass, in the order `validate` makes them. */
  datatype Passed = Passed(name: bool, phone: bool, email: bool, message: bool)

  function PassedOf(f: ContactForm): Passed {
    Passed(!IsBlank(f.buyerName), ValidPhone(f.phone), ValidEmail(f.email), !IsBlank(f.message))
  }

  function Checks(p: Passed): (r: seq<Check>)
    ensures |r| == 4
  {
    [ Check(p.name, "Please enter your name"),
      Check(p.phone, "Phone number must be 10 digits"),
      Check(p.email, "Please enter a valid email"),
      Check(p.message, "Please enter a message") ]
  }

  lemma {:induction false} ChecksPassIffAll(p: Passed)
    ensures p.name && p.phone && p.email && p.message ==> forall i :: 0 <= i < |Checks(p)| ==> Checks(p)[i].ok
    ensures !(p.name && p.phone && p.email && p.message) ==> exists i :: 0 <= i < |Checks(p)| && !Checks(p)[i].ok
  {
    var cs := Checks(p);
    if !(p.name && p.phone && p.email && p.message) {
      var k := if !p.name then 0 else if !p.phone then 1 else if !p.email then 2 else 3;
      assert !cs[k].ok;
    }
  }

  /** The form can be sent: a name, a ten-digit phone, an address of the right shape, a message. */
  ghost predicate Sendable(f: ContactForm) {
    !IsBlank(f.buyerName) && ValidPhone(f.phone) && EmailShape(f.email) && !IsBlank(f.message)
  }

  /** `validate`: the first failing check's message, or nothing when the form can be sent. */
  function Validate(f: ContactForm): (r: Option<string>)
    ensures r.None? <==> Sendable(f)
  {
    var p := PassedOf(f);
    ChecksPassIffAll(p);
    ValidEmailIffShape(f.email);
    FirstFailing(Checks(p))
  }

  lemma {:induction false} PhoneCheckFirstFailing(p: Passed)
    requires p.name && !p.phone
    ensures FirstFailing(Checks(p)) == Some("Phone number must be 10 digits")
  {
    FirstFailingAt(Checks(p), 1);
  }

  /** A phone of the wrong length is reported once the name is there, before the email is looked at. */
  lemma {:induction false} PhoneBeforeEmail(f: ContactForm)
    requires !IsBlank(f.buyerName) && |f.phone| != 10
    ensures Validate(f) == Some("Phone number must be 10 digits")
  {
    var p := PassedOf(f);
    assert p.name && !p.phone;
    PhoneCheckFirstFailing(p);
  }

  // ------------------------------------------------ the page

  datatype Field = BuyerName | Phone | Email | Message

  function EmptyForm(propertyId: JsNumber): ContactForm {
    ContactForm("", "", "", "", propertyId)
  }

  datatype Call = SendEnquiry(form: ContactForm)

  datatype Start = Ignored | Rejected(alert: string) | Sending(snapshot: ContactForm)

  class ContactAgentPage {
    /** `Number(id)` of the route parameter. */
    const propertyId: JsNumber
    var form: ContactForm
    var loading: bool

    constructor (routeId: string)
      ensures propertyId == ToNumber(routeId)
      ensures form == EmptyForm(propertyId) && !loading
    {
      propertyId := ToNumber(routeId);
      form := EmptyForm(ToNumber(routeId));
      loading := false;
    }

    /** `handleChange`: the named input takes the typed value; the other inputs and the property id stay. */
    method HandleChange(field: Field, value: string)
      modifies this
      ensures form.propertyId == old(form).propertyId && loading == old(loading)
      ensures form.buyerName == if field == BuyerName then value else old(form).buyerName
      ensures form.phone == if field == Phone then value else old(form).phone
      ensures form.email == if field == Email then value else old(form).email
      ensures form.message == if field == Message then value else old(form).message
    {
      match field
      case BuyerName => form := form.(buyerName := value);
      case Phone => form := form.(phone := value);
      case Email => form := form.(email := value);
      case Message => form := form.(message := value);
    }

    /**
     * `submit` up to the await: ignored while sending; an invalid form is
     * answered with its message and nothing is sent; otherwise `loading` is
     * raised and the form as it is now is sent.
     */
    method BeginSubmit() returns (start: Start)
      modifies this
      ensures form == old(form)
      ensures old(loading) ==> start == Ignored && loading
      ensures !old(loading) && !Sendable(form) ==> start == Rejected(Validate(form).value) && !loading
      ensures !old(loading) && Sendable(form) ==> start == Sending(form) && loading
    {
      if loading {
        return Ignored;
      }
      var error := Validate(form);
      if error.Some? {
        return Rejected(error.value);
      }
      loading := true;
      start := Sending(form);
    }

    /** The send and what follows: on success the form is emptied for the same property; `loading` is lowered. */
    method FinishSubmit(start: Start, answer: Remote<()>) returns (calls: seq<Call>, events: seq<Event>)
      requires start.Sending?
      modifies this
      ensures calls == [SendEnquiry(start.snapshot)]
      ensures answer.Ok? ==> events == [Alert("Enquiry sent successfully!")] && form == EmptyForm(propertyId)
      ensures answer.Failed? ==> events == [Alert("Error sending enquiry. Please try again.")] && form == old(form)
      ensures !loading
    {
      calls := [SendEnquiry(start.snapshot)];
      if answer.Ok? {
        events := [Alert("Enquiry sent successfully!")];
        form := EmptyForm(propertyId);
      } else {
        events := [Alert("Error sending enquiry. Please try again.")];
      }
      loading := false;
    }
  }
}
