/** The public "List Your Property" form (pages/Sell.js). */
module Sell {
  import opened Wrappers
  import opened Text
  import opened Lists
  import opened Validation
  import opened Ui

  datatype SellerForm = SellerForm(sellerName: string, phone: string, email: string, sellerType: string)

  datatype AddressForm = AddressForm(houseNo: string, street: string, area: string, city: string, state: string, pincode: string)

  /** The property form: every input holds the text typed into it. */
  datatype PropertyForm = PropertyForm(
    title: string, description: string, price: string, bedrooms: string, bathrooms: string,
    areaSqft: string, listingType: string, propertyType: string, address: AddressForm)

  function EmptySeller(): SellerForm {
    SellerForm("", "", "", "OWNER")
  }

  function EmptyProperty(): PropertyForm {
    PropertyForm("", "", "", "", "", "", "sale", "House", AddressForm("", "", "", "", "", ""))
  }

  /** Which of the nine required inputs are filled in, in the order `validate` looks at them. */
  datatype Filled = Filled(
    phone: bool, title: bool, description: bool, price: bool, bedrooms: bool, bathrooms: bool,
    city: bool, state: bool, pincode: bool)

  /** Text inputs count as filled when not blank after trimming; the numeric ones when not empty. */
  function FilledOf(seller: SellerForm, p: PropertyForm): Filled {
    Filled(!IsBlank(seller.phone), !IsBlank(p.title), !IsBlank(p.description),
           p.price != "", p.bedrooms != "", p.bathrooms != "",
           !IsBlank(p.address.city), !IsBlank(p.address.state), !IsBlank(p.address.pincode))
  }

  predicate AllFilled(f: Filled) {
    f.phone && f.title && f.description && f.price && f.bedrooms && f.bathrooms && f.city && f.state && f.pincode
  }

  /** The nine checks of `validate`, in the order they are made. */
  function Checks(f: Filled): (r: seq<Check>)
    ensures |r| == 9
  {
    [ Check(f.phone, "Seller phone is required!"),
      Check(f.title, "Property title is required!"),
      Check(f.description, "Description required!"),
      Check(f.price, "Price required!"),
      Check(f.bedrooms, "Bedrooms required!"),
      Check(f.bathrooms, "Bathrooms required!"),
      Check(f.city, "City required!"),
      Check(f.state, "State required!"),
      Check(f.pincode, "Pincode required!") ]
  }

  lemma {:induction false} ChecksPassIffFilled(f: Filled)
    ensures AllFilled(f) ==> forall i :: 0 <= i < |Checks(f)| ==> Checks(f)[i].ok
    ensures !AllFilled(f) ==> exists i :: 0 <= i < |Checks(f)| && !Checks(f)[i].ok
  {
    var cs := Checks(f);
    if !AllFilled(f) {
      var k := if !f.phone then 0 else if !f.title then 1 else if !f.description then 2
               else if !f.price then 3 else if !f.bedrooms then 4 else if !f.bathrooms then 5
               else if !f.city then 6 else if !f.state then 7 else 8;
      assert !cs[k].ok;
    }
  }

  /** Every required field is filled in (text fields after trimming). */
  predicate Complete(seller: SellerForm, p: PropertyForm) {
    !IsBlank(seller.phone) && !IsBlank(p.title) && !IsBlank(p.description)
    && p.price != "" && p.bedrooms != "" && p.bathrooms != ""
    && !IsBlank(p.address.city) && !IsBlank(p.address.state) && !IsBlank(p.address.pincode)
  }

  /** `validate`: the message of the first check that fails, or nothing when the form is complete. */
  function Validate(seller: SellerForm, p: PropertyForm): (r: Option<string>)
    ensures r.None? <==> Complete(seller, p)
  {
    var f := FilledOf(seller, p);
    ChecksPassIffFilled(f);
    FirstFailing(Checks(f))
  }

  /** A missing phone is reported before anything else. */
  lemma {:induction false} PhoneReportedFirst(seller: SellerForm, p: PropertyForm)
    requires IsBlank(seller.phone)
    ensures Validate(seller, p) == Some("Seller phone is required!")
  {
    FirstFailingAt(Checks(FilledOf(seller, p)), 0);
  }

  /** With everything else filled in, a missing pincode is the one reported. */
  lemma {:induction false} PincodeReportedLast(seller: SellerForm, p: PropertyForm)
    requires IsBlank(p.address.pincode)
    requires !IsBlank(seller.phone) && !IsBlank(p.title) && !IsBlank(p.description)
    requires p.price != "" && p.bedrooms != "" && p.bathrooms != ""
    requires !IsBlank(p.address.city) && !IsBlank(p.address.state)
    ensures Validate(seller, p) == Some("Pincode required!")
  {
    var f := FilledOf(seller, p);
    LastCheckFails(f);
  }

  lemma {:induction false} LastCheckFails(f: Filled)
    requires !f.pincode
    requires f.phone && f.title && f.description && f.price && f.bedrooms && f.bathrooms && f.city && f.state
    ensures FirstFailing(Checks(f)) == Some("Pincode required!")
  {
    var cs := Checks(f);
    forall j | 0 <= j < 8
      ensures cs[j].ok
    {
    }
    FirstFailingAt(cs, 8);
  }

  /** The object sent to `addProperty`: the form with its numeric inputs passed through `Number`. */
  datatype Payload = Payload(
    form: PropertyForm, sellerId: int,
    price: JsNumber, bedrooms: JsNumber, bathrooms: JsNumber, areaSqft: JsNumber)

  function PayloadOf(p: PropertyForm, sellerId: int): Payload {
    Payload(p, sellerId, ToNumber(p.price), ToNumber(p.bedrooms), ToNumber(p.bathrooms), ToNumber(p.areaSqft))
  }

  /** Numbers typed as decimal integers reach the server as those numbers; an empty area is 0. */
  lemma {:induction false} PayloadNumbers(p: PropertyForm, sellerId: int, price: int, bedrooms: int, bathrooms: int)
    requires p.price == IntToString(price) && p.bedrooms == IntToString(bedrooms) && p.bathrooms == IntToString(bathrooms)
    ensures PayloadOf(p, sellerId).price == Finite(price)
    ensures PayloadOf(p, sellerId).bedrooms == Finite(bedrooms)
    ensures PayloadOf(p, sellerId).bathrooms == Finite(bathrooms)
    ensures p.areaSqft == "" ==> PayloadOf(p, sellerId).areaSqft == Finite(0)
    ensures PayloadOf(p, sellerId).sellerId == sellerId && PayloadOf(p, sellerId).form == p
  {
    NumberOfString(price);
    NumberOfString(bedrooms);
    NumberOfString(bathrooms);
  }

  /** A staged picture: the chosen file and its object URL for the preview. */
  datatype StagedImage = StagedImage(file: int, url: string)

  function Files(images: seq<StagedImage>): (r: seq<int>)
    ensures |r| == |images|
    ensures forall i :: 0 <= i < |r| ==> r[i] == images[i].file
  {
    if images == [] then [] else [images[0].file] + Files(images[1..])
  }

  datatype Call = UpsertSeller(seller: SellerForm) | CreateProperty(payload: Payload) | UploadImages(propertyId: int, files: seq<int>)

  datatype Run = Run(calls: seq<Call>, events: seq<Event>)

  const Failure := "Something went wrong while submitting."

  /** The success alert, then the listing page. */
  const Succeeded := [Alert("Property submitted successfully!"), Navigate("/properties")]

  /**
   * The body of the `try` after validation: upsert the seller, create the
   * property with the returned seller id, upload the staged files when there
   * are any; the first failing call ends in the one generic message.
   */
  function Submission(seller: SellerForm, p: PropertyForm, images: seq<StagedImage>,
                      sellerAnswer: Remote<int>, propertyAnswer: Remote<int>, uploadAnswer: Remote<()>): (r: Run)
    ensures 1 <= |r.calls| <= 3 && r.calls[0] == UpsertSeller(seller)
    ensures |r.calls| >= 2 <==> sellerAnswer.Ok?
    ensures |r.calls| >= 2 ==> r.calls[1] == CreateProperty(PayloadOf(p, sellerAnswer.value))
    ensures |r.calls| == 3 <==> sellerAnswer.Ok? && propertyAnswer.Ok? && images != []
    ensures |r.calls| == 3 ==> r.calls[2] == UploadImages(propertyAnswer.value, Files(images))
    ensures r.events == if sellerAnswer.Failed? || propertyAnswer.Failed? || (images != [] && uploadAnswer.Failed?)
                        then [Alert(Failure)] else Succeeded
  {
    var fail := [Alert(Failure)];
    if sellerAnswer.Failed? then Run([UpsertSeller(seller)], fail)
    else
      var created := [UpsertSeller(seller), CreateProperty(PayloadOf(p, sellerAnswer.value))];
      if propertyAnswer.Failed? then Run(created, fail)
      else if images == [] then Run(created, Succeeded)
      else
        var all := created + [UploadImages(propertyAnswer.value, Files(images))];
        if uploadAnswer.Failed? then Run(all, fail)
        else Run(all, Succeeded)
  }

  /** What a click on Submit does before the first await. */
  datatype Start =
    | Ignored
    | Rejected(alert: string)
    | Started(seller: SellerForm, property: PropertyForm, images: seq<StagedImage>)

  class SellPage {
    var seller: SellerForm
    var property: PropertyForm
    var images: seq<StagedImage>
    var isSubmitting: bool

    constructor ()
      ensures seller == EmptySeller() && property == EmptyProperty()
      ensures images == [] && !isSubmitting
    {
      seller := EmptySeller();
      property := EmptyProperty();
      images := [];
      isSubmitting := false;
    }

    /**
     * The synchronous part of `handleSubmit`: ignored while a submission is
     * in flight, rejected with the validation message (and the flag left as
     * it was) when the form is incomplete, otherwise the flag is raised and
     * the form as it is now is what the awaited steps will send.
     */
    method BeginSubmit() returns (start: Start)
      modifies this
      ensures seller == old(seller) && property == old(property) && images == old(images)
      ensures old(isSubmitting) ==> start == Ignored && isSubmitting
      ensures !old(isSubmitting) && !Complete(seller, property) ==>
                start == Rejected(Validate(seller, property).value) && !isSubmitting
      ensures !old(isSubmitting) && Complete(seller, property) ==>
                start == Started(seller, property, images) && isSubmitting
    {
      if isSubmitting {
        return Ignored;
      }
      var err := Validate(seller, property);
      if err.Some? {
        return Rejected(err.value);
      }
      isSubmitting := true;
      start := Started(seller, property, images);
    }

    /** The awaited steps and the `finally`: whatever happened, the button is unlocked. */
    method FinishSubmit(start: Start, sellerAnswer: Remote<int>, propertyAnswer: Remote<int>, uploadAnswer: Remote<()>)
      returns (run: Run)
      requires start.Started?
      modifies this
      ensures run == Submission(start.seller, start.property, start.images, sellerAnswer, propertyAnswer, uploadAnswer)
      ensures !isSubmitting
      ensures seller == old(seller) && property == old(property) && images == old(images)
    {
      run := Submission(start.seller, start.property, start.images, sellerAnswer, propertyAnswer, uploadAnswer);
      isSubmitting := false;
    }

    /** The file input: the chosen files are staged after those already there. */
    method StageFiles(added: seq<StagedImage>)
      modifies this
      ensures images == old(images) + added
      ensures seller == old(seller) && property == old(property) && isSubmitting == old(isSubmitting)
    {
      images := images + added;
    }

    /** Dropping the tile dragged from `from` onto tile `to`. */
    method DropImage(from: int, to: int)
      requires 0 <= from < |images| && 0 <= to < |images|
      modifies this
      ensures images == Move(old(images), from, to)
      ensures |images| == |old(images)| && multiset(images) == multiset(old(images))
      ensures images[to] == old(images)[from]
      ensures seller == old(seller) && property == old(property) && isSubmitting == old(isSubmitting)
    {
      var arr := images;
      var moved := arr[from];
      arr := RemoveAt(arr, from);
      arr := InsertAt(arr, to, moved);
      images := arr;
    }

    /** The ✖ button of tile `index`. */
    method RemoveImage(index: int)
      requires 0 <= index < |images|
      modifies this
      ensures images == RemoveAt(old(images), index)
      ensures |images| == |old(images)| - 1
      ensures seller == old(seller) && property == old(property) && isSubmitting == old(isSubmitting)
    {
      images := RemoveAt(images, index);
    }
  }

  /** Dragging a tile and dropping it back where it came from changes nothing. */
  lemma {:induction false} MoveBack<T>(s: seq<T>, from: int, to: int)
    requires 0 <= from < |s| && 0 <= to < |s|
    ensures Move(Move(s, from, to), to, from) == s
  {
    var r := Move(s, from, to);
    var b := Move(r, to, from);
    assert RemoveAt(b, from) == RemoveAt(r, to) == RemoveAt(s, from);
    assert b[from] == s[from];
    RemoveAtDetermines(b, s, from);
  }

  /** Two sequences of one length that agree at `i` and once `i` is dropped are equal. */
  lemma {:induction false} RemoveAtDetermines<T>(a: seq<T>, b: seq<T>, i: int)
    requires 0 <= i < |a| == |b| && a[i] == b[i] && RemoveAt(a, i) == RemoveAt(b, i)
    ensures a == b
  {
    forall j | 0 <= j < |a|
      ensures a[j] == b[j]
    {
      if j < i {
        assert a[j] == RemoveAt(a, i)[j];
      } else if j > i {
        assert a[j] == RemoveAt(a, i)[j - 1];
      }
    }
  }
}
