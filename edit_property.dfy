/** The admin property editor (pages/AdminEditProperty.js). */
module EditProperty {
  import opened Wrappers
  import opened Text
  import opened Validation
  import opened Ui

  /** A field value as the editor holds it: typed text, a number from `Number(...)`, or null/undefined. */
  datatype Value = Str(s: string) | Num(n: JsNumber) | Absent

  /** JavaScript truthiness: "" , 0, NaN, null and undefined are falsy. */
  predicate Truthy(v: Value) {
    match v
    case Str(s) => s != ""
    case Num(n) => n.Finite? && n.value != 0
    case Absent => false
  }

  function Get(fields: map<string, Value>, name: string): Value {
    if name in fields then fields[name] else Absent
  }

  /** The loaded property: its own fields, and its nested `address` and `seller` objects. */
  datatype Edited = Edited(top: map<string, Value>, address: map<string, Value>, seller: map<string, Value>)

  /** The three checks of `saveChanges`, in order. */
  function SaveChecks(p: Edited): (r: seq<Check>)
    ensures |r| == 3
  {
    var listingType := Get(p.top, "listingType");
    [ Check(Truthy(Get(p.top, "title")), "Title is required"),
      Check(listingType != Str("sale") || Truthy(Get(p.top, "price")), "Price is required for Sale"),
      Check(listingType != Str("rent") || Truthy(Get(p.top, "monthlyRent")), "Monthly Rent is required") ]
  }

  /** A title, and the amount the listing type asks for: the price for a sale, the rent for a rental. */
  predicate Saveable(p: Edited) {
    Truthy(Get(p.top, "title"))
    && (Get(p.top, "listingType") == Str("sale") ==> Truthy(Get(p.top, "price")))
    && (Get(p.top, "listingType") == Str("rent") ==> Truthy(Get(p.top, "monthlyRent")))
  }

  lemma {:induction false} SaveChecksPass(p: Edited)
    ensures Saveable(p) ==> forall i :: 0 <= i < |SaveChecks(p)| ==> SaveChecks(p)[i].ok
    ensures !Saveable(p) ==> exists i :: 0 <= i < |SaveChecks(p)| && !SaveChecks(p)[i].ok
  {
    var cs := SaveChecks(p);
    if !Saveable(p) {
      var k := if !cs[0].ok then 0 else if !cs[1].ok then 1 else 2;
      assert !cs[k].ok;
    }
  }

  /** The alert `saveChanges` raises instead of saving, if any. */
  function SaveError(p: Edited): (r: Option<string>)
    ensures r.None? <==> Saveable(p)
  {
    SaveChecksPass(p);
    FirstFailing(SaveChecks(p))
  }

  /** A missing title is reported first, whatever the listing type. */
  lemma {:induction false} TitleFirst(p: Edited)
    requires !Truthy(Get(p.top, "title"))
    ensures SaveError(p) == Some("Title is required")
  {
    FirstFailingAt(SaveChecks(p), 0);
  }

  /** A sale whose price input was cleared (`Number("")` is 0) cannot be saved. */
  lemma {:induction false} ClearedSalePrice(p: Edited)
    requires Truthy(Get(p.top, "title")) && Get(p.top, "listingType") == Str("sale")
    requires Get(p.top, "price") == Num(ToNumber(""))
    ensures SaveError(p) == Some("Price is required for Sale")
  {
    FirstFailingAt(SaveChecks(p), 1);
  }

  /** A rental is saved on its rent alone: its price is not looked at. */
  lemma {:induction false} RentIgnoresPrice(p: Edited, price: Value)
    requires Get(p.top, "listingType") == Str("rent")
    ensures SaveError(p) == SaveError(p.(top := p.top["price" := price]))
  {
    var q := p.(top := p.top["price" := price]);
    assert SaveChecks(p)[0] == SaveChecks(q)[0] && SaveChecks(p)[2] == SaveChecks(q)[2];
    assert SaveChecks(p)[1].ok && SaveChecks(q)[1].ok;
    assert SaveChecks(p) == SaveChecks(q);
  }

  datatype Call = GetProperty(id: string) | UpdateProperty(id: string, property: Edited) | UploadPropertyImages(propertyId: Value, files: seq<int>)

  datatype SaveStart = Ignored | Rejected(alert: string) | Saving(snapshot: Edited)

  class EditPropertyPage {
    const id: string
    var property: Option<Edited>
    var saving: bool
    var addingFiles: seq<int>

    constructor (id: string)
      ensures this.id == id && property == None && !saving && addingFiles == []
    {
      this.id := id;
      property := None;
      saving := false;
      addingFiles := [];
    }

    /** `loadData`: the fetched property replaces the form; a failure leaves it as it was. */
    method Load(answer: Remote<Edited>) returns (events: seq<Event>)
      modifies this
      ensures answer.Ok? ==> property == Some(answer.value) && events == []
      ensures answer.Failed? ==> property == old(property) && events == [Alert("Failed to load property")]
      ensures saving == old(saving) && addingFiles == old(addingFiles)
    {
      if answer.Failed? {
        return [Alert("Failed to load property")];
      }
      property := Some(answer.value);
      events := [];
    }

    /** `handleChange`: one top-level field takes the new value; the rest of the property is untouched. */
    method HandleChange(field: string, value: Value)
      requires property.Some?
      modifies this
      ensures property.Some? && ChangedOnly(old(property).value.top, property.value.top, field, value)
      ensures property.value.address == old(property).value.address
      ensures property.value.seller == old(property).value.seller
      ensures saving == old(saving) && addingFiles == old(addingFiles)
    {
      var prev := property.value;
      property := Some(prev.(top := prev.top[field := value]));
    }

    /** The numeric inputs pass their text through `Number` first. */
    method HandleNumberChange(field: string, text: string)
      requires property.Some?
      modifies this
      ensures property.Some? && ChangedOnly(old(property).value.top, property.value.top, field, Num(ToNumber(text)))
      ensures property.value.address == old(property).value.address
      ensures property.value.seller == old(property).value.seller
      ensures saving == old(saving) && addingFiles == old(addingFiles)
    {
      HandleChange(field, Num(ToNumber(text)));
    }

    /** `handleAddressChange`: one address field changes; other address fields and the rest stay. */
    method HandleAddressChange(field: string, value: Value)
      requires property.Some?
      modifies this
      ensures property.Some? && ChangedOnly(old(property).value.address, property.value.address, field, value)
      ensures property.value.top == old(property).value.top
      ensures property.value.seller == old(property).value.seller
      ensures saving == old(saving) && addingFiles == old(addingFiles)
    {
      var prev := property.value;
      property := Some(prev.(address := prev.address[field := value]));
    }

    /** `handleSellerChange`: one seller field changes; other seller fields and the rest stay. */
    method HandleSellerChange(field: string, value: Value)
      requires property.Some?
      modifies this
      ensures property.Some? && ChangedOnly(old(property).value.seller, property.value.seller, field, value)
      ensures property.value.top == old(property).value.top
      ensures property.value.address == old(property).value.address
      ensures saving == old(saving) && addingFiles == old(addingFiles)
    {
      var prev := property.value;
      property := Some(prev.(seller := prev.seller[field := value]));
    }

    /**
     * A click on Save Changes up to the await: the button is disabled while
     * saving; a failed check alerts and leaves `saving` alone; otherwise
     * `saving` is raised and the property as it is now is sent.
     */
    method BeginSave() returns (start: SaveStart)
      requires property.Some?
      modifies this
      ensures property == old(property) && addingFiles == old(addingFiles)
      ensures old(saving) ==> start == Ignored && saving
      ensures !old(saving) && !Saveable(property.value) ==>
                start == Rejected(SaveError(property.value).value) && !saving
      ensures !old(saving) && Saveable(property.value) ==> start == Saving(property.value) && saving
    {
      if saving {
        return Ignored;
      }
      var err := SaveError(property.value);
      if err.Some? {
        return Rejected(err.value);
      }
      saving := true;
      start := Saving(property.value);
    }

    /** The update call and its outcome; `saving` is lowered either way. */
    method FinishSave(start: SaveStart, answer: Remote<()>) returns (calls: seq<Call>, events: seq<Event>)
      requires start.Saving?
      modifies this
      ensures calls == [UpdateProperty(id, start.snapshot)]
      ensures answer.Ok? ==> events == [Alert("Updated Successfully!"), Navigate("/admin/property/" + id)]
      ensures answer.Failed? ==> events == [Alert("Update Failed")]
      ensures !saving && property == old(property) && addingFiles == old(addingFiles)
    {
      calls := [UpdateProperty(id, start.snapshot)];
      if answer.Ok? {
        events := [Alert("Updated Successfully!"), Navigate("/admin/property/" + id)];
      } else {
        events := [Alert("Update Failed")];
      }
      saving := false;
    }

    /** The file input: the chosen files replace the staged ones. */
    method SelectFiles(files: seq<int>)
      modifies this
      ensures addingFiles == files && property == old(property) && saving == old(saving)
    {
      addingFiles := files;
    }

    /**
     * `uploadNewImages`: nothing at all with no staged files; otherwise the
     * upload, and on success the staged files are cleared and the property is
     * fetched again; a failure alerts and keeps the staged files.
     */
    method UploadNewImages(answer: Remote<()>) returns (calls: seq<Call>, events: seq<Event>)
      requires property.Some?
      modifies this
      ensures property == old(property) && saving == old(saving)
      ensures old(addingFiles) == [] ==> calls == [] && events == [] && addingFiles == []
      ensures old(addingFiles) != [] && answer.Ok? ==>
                calls == [UploadPropertyImages(Get(property.value.top, "propertyId"), old(addingFiles)), GetProperty(id)]
                && events == [] && addingFiles == []
      ensures old(addingFiles) != [] && answer.Failed? ==>
                calls == [UploadPropertyImages(Get(property.value.top, "propertyId"), old(addingFiles))]
                && events == [Alert("Upload Failed")] && addingFiles == old(addingFiles)
    {
      if |addingFiles| == 0 {
        return [], [];
      }
      calls := [UploadPropertyImages(Get(property.value.top, "propertyId"), addingFiles)];
      if answer.Ok? {
        addingFiles := [];
        calls := calls + [GetProperty(id)];
        events := [];
      } else {
        events := [Alert("Upload Failed")];
      }
    }
  }
}
