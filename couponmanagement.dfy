/** The admin coupon list: every coupon as a card with its discount, a
    search by code, deletion after a confirmation, and a form that creates a
    coupon. */
module CouponManagement {
  import opened Common
  import opened Toasts

  const FetchFailedMessage := "Failed to fetch coupons"
  const DeletedMessage := "Coupon deleted successfully"
  const DeleteFailedMessage := "Failed to delete coupon"
  const CreatedMessage := "Coupon created successfully"
  const CreateFailedMessage := "Failed to create coupon"
  const Percentage := "percentage"

  /** A coupon as the backend lists it. */
  datatype Coupon = Coupon(
    id: string, code: string, discountType: string, discountValue: int,
    minOrderAmount: int, usageLimit: Option<int>, usedCount: int)

  /** The create form's fields, as the inputs hold them (text). */
  datatype CouponForm = CouponForm(
    code: string, discountType: string, discountValue: string,
    minOrderAmount: string, validUntil: string, usageLimit: string)

  /** The form as it opens and as it is reset after a creation. */
  const DefaultForm := CouponForm("", Percentage, "", "0", "", "")

  /** The browser's validation of the create form, run before
      `handleSubmit`: the code and the expiry date are `required` (a date
      input holds either "" or a date); the discount is a required number
      of at least 0; the minimum order amount, if given, at least 0; the
      usage limit, if given, at least 1. */
  predicate CouponFormAccepted(f: CouponForm)
  {
    && f.code != "" && f.validUntil != ""
    && NumberFieldAccepts(f.discountValue, 0, true)
    && NumberFieldAccepts(f.minOrderAmount, 0, false)
    && NumberFieldAccepts(f.usageLimit, 1, false)
  }

  /** What is sent to create a coupon: the form's fields with the code in
      capitals (the start date, taken from the clock, is not modelled). */
  datatype CouponPayload = CouponPayload(
    code: string, discountType: string, discountValue: string,
    minOrderAmount: string, validUntil: string, usageLimit: string)

  function PayloadOf(form: CouponForm): (p: CouponPayload)
    ensures NoLowerLetter(p.code) && |p.code| == |form.code|
    ensures Lower(p.code) == Lower(form.code)
    ensures p.discountType == form.discountType && p.discountValue == form.discountValue
    ensures p.minOrderAmount == form.minOrderAmount && p.validUntil == form.validUntil
    ensures p.usageLimit == form.usageLimit
  {
    UpperHasNoLowerLetter(form.code);
    LowerOfUpper(form.code);
    CouponPayload(Upper(form.code), form.discountType, form.discountValue,
                  form.minOrderAmount, form.validUntil, form.usageLimit)
  }

  /** A code typed in capitals is sent as typed. */
  lemma CapitalCodeSentAsTyped(form: CouponForm)
    requires NoLowerLetter(form.code)
    ensures PayloadOf(form).code == form.code
  {
    forall i | 0 <= i < |form.code|
      ensures PayloadOf(form).code[i] == form.code[i]
    {
      assert Upper(form.code)[i] == UpperChar(form.code[i]);
    }
  }

  // ------------------------------------------------------------ search

  /** The search test: the lower-cased code contains the lower-cased term. */
  predicate CodeMatches(c: Coupon, term: string)
  {
    Includes(Lower(c.code), Lower(term))
  }

  /** `filteredCoupons`: the coupons whose code matches, in list order. */
  function FilteredCoupons(coupons: seq<Coupon>, term: string): (r: seq<Coupon>)
    ensures |r| <= |coupons|
    ensures forall i :: 0 <= i < |r| ==> r[i] in coupons && CodeMatches(r[i], term)
    ensures forall c :: c in coupons && CodeMatches(c, term) ==> c in r
  {
    Filter(coupons, c => CodeMatches(c, term))
  }

  /** The search keeps list order: it distributes over joined lists, and a
      single coupon stays exactly when its code matches. */
  lemma FilteredCouponsKeepOrder(a: seq<Coupon>, b: seq<Coupon>, term: string, c: Coupon)
    ensures FilteredCoupons(a + b, term) == FilteredCoupons(a, term) + FilteredCoupons(b, term)
    ensures FilteredCoupons([c], term) == if CodeMatches(c, term) then [c] else []
  {
    FilterAppend(a, b, c => CodeMatches(c, term));
  }

  /** An empty search shows every coupon. */
  lemma EmptySearchKeepsAll(coupons: seq<Coupon>)
    ensures FilteredCoupons(coupons, "") == coupons
  {
    forall i | 0 <= i < |coupons|
      ensures CodeMatches(coupons[i], "")
    {
      IncludesEmpty(Lower(coupons[i].code));
    }
    FilterAll(coupons, c => CodeMatches(c, ""));
  }

  /** The search ignores case: a term and its capitalised form select the
      same coupons. */
  lemma SearchIgnoresCase(coupons: seq<Coupon>, term: string)
    ensures FilteredCoupons(coupons, Upper(term)) == FilteredCoupons(coupons, term)
  {
    LowerOfUpper(term);
    FilterExt(coupons, c => CodeMatches(c, Upper(term)), c => CodeMatches(c, term));
  }

  lemma IncludesItself(s: string)
    ensures Includes(s, s)
  {
    assert OccursAt(s, s, 0);
  }

  /** A coupon the backend created from a form is found by searching for
      the code exactly as it was typed, whatever its case. */
  lemma CreatedCouponFoundByTypedCode(form: CouponForm, created: Coupon)
    requires created.code == PayloadOf(form).code
    ensures CodeMatches(created, form.code)
  {
    IncludesItself(Lower(form.code));
  }

  // ------------------------------------------------------------- cards

  /** The discount line of a card: "N% OFF" for a percentage, "₹N OFF"
      for anything else. */
  function DiscountLabel(c: Coupon): (caption: string)
    ensures c.discountType == Percentage ==>
      |caption| > 5 && caption[|caption| - 5..] == "% OFF" && caption[..|caption| - 5] == IntText(c.discountValue)
    ensures c.discountType != Percentage ==>
      |caption| > 5 && caption[0] == '₹' && caption[|caption| - 4..] == " OFF"
      && caption[1..|caption| - 4] == IntText(c.discountValue)
  {
    if c.discountType == Percentage then IntText(c.discountValue) + "% OFF"
    else "₹" + IntText(c.discountValue) + " OFF"
  }

  lemma IntTextStart(i: int)
    ensures IntText(i)[0] == '-' || IsDigit(IntText(i)[0])
  {
  }

  /** The discount line tells the kind of discount and its amount: two
      cards with the same line have the same amount and are both
      percentages or both not. */
  lemma DiscountLabelReadsBack(a: Coupon, b: Coupon)
    requires DiscountLabel(a) == DiscountLabel(b)
    ensures (a.discountType == Percentage) == (b.discountType == Percentage)
    ensures a.discountValue == b.discountValue
  {
    IntTextStart(a.discountValue);
    IntTextStart(b.discountValue);
    NumberValueOfIntText(a.discountValue);
    NumberValueOfIntText(b.discountValue);
  }

  /** The minimum-order badge shows only for a positive minimum. */
  predicate MinBadgeShown(c: Coupon)
  {
    c.minOrderAmount > 0
  }

  /** The usage limit shows when set and not zero. */
  predicate LimitShown(c: Coupon)
  {
    c.usageLimit.Some? && c.usageLimit.value != 0
  }

  /** The badges of a coupon whose minimum and limit are the numbers the
      form's fields read as (an empty limit kept as none): the default form
      shows neither, and a field of digits shows its badge exactly when
      its number is positive. */
  lemma BadgesOfForm(form: CouponForm, c: Coupon)
    requires NumberValue(form.minOrderAmount) == Some(c.minOrderAmount)
    requires c.usageLimit == if form.usageLimit == "" then None else NumberValue(form.usageLimit)
    ensures form == DefaultForm ==> !MinBadgeShown(c) && !LimitShown(c)
    ensures AllDigits(form.minOrderAmount) ==>
      (MinBadgeShown(c) <==> DigitsValue(form.minOrderAmount) > 0)
    ensures form.usageLimit != "" && AllDigits(form.usageLimit) ==>
      (LimitShown(c) <==> DigitsValue(form.usageLimit) > 0)
  {
    if form == DefaultForm {
      assert AllDigits("0") by { assert "0"[0] == '0'; }
      assert DigitsValue("0") == 0;
    }
  }

  /** What the browser's check means for what is sent and shown: the
      default form (no code) is never sent, an accepted form sends a
      non-empty code and a discount that reads as a number of at least 0,
      and for a coupon built from an accepted form the limit badge shows
      exactly when a limit was typed. */
  lemma AcceptedCouponForm(form: CouponForm, c: Coupon)
    requires c.usageLimit == if form.usageLimit == "" then None else NumberValue(form.usageLimit)
    ensures !CouponFormAccepted(DefaultForm)
    ensures CouponFormAccepted(form) ==>
      && PayloadOf(form).code != ""
      && NumberValue(PayloadOf(form).discountValue).Some? && NumberValue(PayloadOf(form).discountValue).value >= 0
      && (LimitShown(c) <==> form.usageLimit != "")
  {
    if CouponFormAccepted(form) {
      assert |PayloadOf(form).code| == |form.code| > 0;
    }
  }

  // ------------------------------------------------------------- page

  /** The coupons left after deleting `id`: all the others, in order. */
  function WithoutCoupon(coupons: seq<Coupon>, id: string): (r: seq<Coupon>)
    ensures forall c :: c in r <==> c in coupons && c.id != id
    ensures |r| <= |coupons|
  {
    Filter(coupons, (c: Coupon) => c.id != id)
  }

  /** Deleting a coupon that is not listed changes nothing. */
  lemma WithoutAbsentCoupon(coupons: seq<Coupon>, id: string)
    requires forall i :: 0 <= i < |coupons| ==> coupons[i].id != id
    ensures WithoutCoupon(coupons, id) == coupons
  {
    FilterAll(coupons, (c: Coupon) => c.id != id);
  }

  datatype CouponCall = ListCoupons | DeleteCoupon(id: string) | CreateCoupon(payload: CouponPayload)

  /** A deletion on its way: the coupon's id and the list as it stood when
      the delete button was pressed. */
  datatype PendingDelete = PendingDelete(id: string, listed: seq<Coupon>)

  class CouponManagementPage {
    var coupons: seq<Coupon>
    var loading: bool
    var searchTerm: string
    var showModal: bool
    var form: CouponForm
    var createLoading: bool
    /** The list as it stood when the pending creation was submitted: the
        handler's closure appends the new coupon to this list, not to the
        list on screen when the reply arrives. */
    var submitted: seq<Coupon>
    var calls: seq<CouponCall>
    var notices: seq<Notice>
    /** Deletions sent and not yet answered, each with the list its handler
        captured at the click. */
    var pendingDeletes: seq<PendingDelete>

    /** The page opens with the list being fetched. */
    constructor ()
      ensures coupons == [] && loading && searchTerm == "" && !showModal && form == DefaultForm
      ensures !createLoading && submitted == [] && calls == [ListCoupons] && notices == [] && pendingDeletes == []
    {
      coupons := [];
      loading := true;
      searchTerm := "";
      showModal := false;
      form := DefaultForm;
      createLoading := false;
      submitted := [];
      calls := [ListCoupons];
      notices := [];
      pendingDeletes := [];
    }

    /** The cards on show. */
    function Shown(): seq<Coupon>
      reads this
    {
      FilteredCoupons(coupons, searchTerm)
    }

    /** The answer to the list request: a success replaces the coupons, a
        failure keeps them and reports it; either way loading ends. */
    method FinishFetch(reply: Reply<seq<Coupon>>)
      modifies this
      ensures pendingDeletes == old(pendingDeletes)
      ensures !loading
      ensures reply.Ok? ==> coupons == reply.payload && notices == old(notices)
      ensures reply.Err? ==> coupons == old(coupons) && notices == old(notices) + [Notice(Error, FetchFailedMessage)]
      ensures searchTerm == old(searchTerm) && showModal == old(showModal) && form == old(form)
      ensures createLoading == old(createLoading) && submitted == old(submitted) && calls == old(calls)
    {
      if reply.Ok? {
        coupons := reply.payload;
      } else {
        notices := notices + [Notice(Error, FetchFailedMessage)];
      }
      loading := false;
    }

    method SetSearchTerm(term: string)
      modifies this
      ensures pendingDeletes == old(pendingDeletes)
      ensures searchTerm == term
      ensures coupons == old(coupons) && loading == old(loading) && showModal == old(showModal)
      ensures form == old(form) && createLoading == old(createLoading) && submitted == old(submitted)
      ensures calls == old(calls) && notices == old(notices)
    {
      searchTerm := term;
    }

    /** Typing into the create form, or opening and closing it: the typed
        values survive a close. */
    method EditForm(value: CouponForm, open: bool)
      modifies this
      ensures pendingDeletes == old(pendingDeletes)
      ensures form == value && showModal == open
      ensures coupons == old(coupons) && loading == old(loading) && searchTerm == old(searchTerm)
      ensures createLoading == old(createLoading) && submitted == old(submitted) && calls == old(calls) && notices == old(notices)
    {
      form := value;
      showModal := open;
    }

    /** The delete button, leading to `handleDelete`: nothing without the
        admin's confirmation; otherwise the deletion goes out, and the
        handler keeps the list as it stood at the click for when the reply
        comes. */
    method BeginDelete(id: string, confirmed: bool)
      modifies this
      ensures confirmed ==>
        calls == old(calls) + [DeleteCoupon(id)]
        && pendingDeletes == old(pendingDeletes) + [PendingDelete(id, old(coupons))]
      ensures !confirmed ==> calls == old(calls) && pendingDeletes == old(pendingDeletes)
      ensures coupons == old(coupons) && notices == old(notices)
      ensures loading == old(loading) && searchTerm == old(searchTerm) && showModal == old(showModal)
      ensures form == old(form) && createLoading == old(createLoading) && submitted == old(submitted)
    {
      if confirmed {
        calls := calls + [DeleteCoupon(id)];
        pendingDeletes := pendingDeletes + [PendingDelete(id, coupons)];
      }
    }

    /** The reply to the deletion sent as `pendingDeletes[k]`: a success
        shows the list remembered at its click without that coupon (so a
        coupon deleted or created meanwhile is back, or gone, again) and
        reports it; a failure keeps the list and reports it. */
    method FinishDelete(k: nat, reply: Reply<()>)
      requires k < |pendingDeletes|
      modifies this
      ensures var d := old(pendingDeletes[k]);
        && (reply.Ok? ==>
              coupons == WithoutCoupon(d.listed, d.id) && notices == old(notices) + [Notice(Success, DeletedMessage)])
        && (reply.Err? ==> coupons == old(coupons) && notices == old(notices) + [Notice(Error, DeleteFailedMessage)])
      ensures pendingDeletes == old(pendingDeletes[..k] + pendingDeletes[k + 1..])
      ensures calls == old(calls)
      ensures loading == old(loading) && searchTerm == old(searchTerm) && showModal == old(showModal)
      ensures form == old(form) && createLoading == old(createLoading) && submitted == old(submitted)
    {
      var d := pendingDeletes[k];
      if reply.Ok? {
        coupons := WithoutCoupon(d.listed, d.id);
        notices := notices + [Notice(Success, DeletedMessage)];
      } else {
        notices := notices + [Notice(Error, DeleteFailedMessage)];
      }
      pendingDeletes := pendingDeletes[..k] + pendingDeletes[k + 1..];
    }

    /** The create button, leading to the first half of `handleSubmit`.
        The button is disabled while a creation is pending, and the browser
        refuses a form that fails its field constraints; in either case
        nothing happens. Otherwise the button turns into a spinner, the form
        goes out with its code in capitals and the list on screen is
        remembered; nothing else changes until the reply. */
    method BeginSubmit() returns (started: bool)
      modifies this
      ensures pendingDeletes == old(pendingDeletes)
      ensures started <==> !old(createLoading) && CouponFormAccepted(old(form))
      ensures started ==>
        createLoading && submitted == old(coupons) && calls == old(calls) + [CreateCoupon(PayloadOf(old(form)))]
      ensures !started ==>
        createLoading == old(createLoading) && submitted == old(submitted) && calls == old(calls)
      ensures coupons == old(coupons) && showModal == old(showModal) && form == old(form)
      ensures notices == old(notices) && loading == old(loading) && searchTerm == old(searchTerm)
    {
      started := !createLoading && CouponFormAccepted(form);
      if started {
        createLoading := true;
        submitted := coupons;
        calls := calls + [CreateCoupon(PayloadOf(form))];
      }
    }

    /** The second half: the coupon the backend returns is appended to the
        list remembered at submission (so a coupon deleted while the request
        was out shows up again), the form closes and resets; a failure keeps
        the list and the form and reports the backend's message or a
        default. The button is enabled again either way. */
    method FinishSubmit(reply: Reply<Coupon>)
      modifies this
      ensures pendingDeletes == old(pendingDeletes)
      ensures !createLoading && calls == old(calls) && submitted == old(submitted)
      ensures reply.Ok? ==>
        coupons == old(submitted) + [reply.payload] && !showModal && form == DefaultForm
        && notices == old(notices) + [Notice(Success, CreatedMessage)]
      ensures reply.Err? ==>
        coupons == old(coupons) && showModal == old(showModal) && form == old(form)
        && notices == old(notices) + [Notice(Error, OrElse(reply.message, CreateFailedMessage))]
      ensures loading == old(loading) && searchTerm == old(searchTerm)
    {
      if reply.Ok? {
        coupons := submitted + [reply.payload];
        notices := notices + [Notice(Success, CreatedMessage)];
        showModal := false;
        form := DefaultForm;
      } else {
        notices := notices + [Notice(Error, OrElse(reply.message, CreateFailedMessage))];
      }
      createLoading := false;
    }
  }
}
