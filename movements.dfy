/** Admission of a new movement from the submitted form: the two checks, the
    "None" normalisation of the location selects, and the single append to
    the ledger that happens only when both checks pass and the commit
    succeeds. */
module Movements {
  import opened Wrappers
  import opened Ledger

  /** The two rejections, in the order they are checked. */
  datatype Rejection =
    | ProductOrQuantityMissing  // no product id, no integer qty, or qty <= 0
    | NoLocationSelected        // neither location field filled in

  /** Why a submission left the ledger unchanged. */
  datatype SubmitError = Rejected(reason: Rejection) | CommitFailed

  /** Python truthiness of a form field: an absent field and the empty
      string are both false; any other string, "None" included, is true. */
  predicate Blank(field: Option<string>): (b: bool)
    ensures !b <==> field.Some? && |field.value| > 0
    ensures field == Some("None") ==> !b
  {
    field == None || field == Some("")
  }

  /** The location selects offer "None" for no location. Only that exact
      string becomes absent; any other value, the empty string included, is
      kept as a location id. */
  function Normalise(field: Option<string>): (r: Option<Id>)
    ensures r != Some("None")
    ensures r == None <==> field == None || field == Some("None")
    ensures r.Some? ==> field == r
  {
    if field == Some("None") then None else field
  }

  /** The checks of the movement form, on the fields as submitted (`qty`
      already parsed as an integer, None when missing or not an integer).
      The emptiness check on the locations runs on the raw fields, before
      the "None" normalisation, so two "None" selections pass it. */
  function Validate(productId: Option<string>, qty: Option<int>, fromField: Option<string>, toField: Option<string>)
    : (r: Result<Movement, Rejection>)
    ensures r.Success? <==>
      !Blank(productId) && qty.Some? && qty.value > 0 && !(Blank(fromField) && Blank(toField))
    ensures r == Failure(ProductOrQuantityMissing) <==> Blank(productId) || qty == None || qty.value <= 0
    ensures r.Success? ==>
      && r.value.product == productId.value && r.value.product != ""
      && r.value.qty == qty.value && r.value.qty > 0
      && r.value.from == Normalise(fromField) && r.value.to == Normalise(toField)
  {
    if Blank(productId) || qty == None || qty.value <= 0 then Failure(ProductOrQuantityMissing)
    else if Blank(fromField) && Blank(toField) then Failure(NoLocationSelected)
    else Success(Movement(productId.value, Normalise(fromField), Normalise(toField), qty.value))
  }

  /** An admitted movement has no endpoint exactly when each location field
      was absent or the literal "None" (and, the check having passed, at
      least one of them was "None"). */
  lemma AdmittedEndpoints(productId: Option<string>, qty: Option<int>, fromField: Option<string>, toField: Option<string>)
    requires Validate(productId, qty, fromField, toField).Success?
    ensures var m := Validate(productId, qty, fromField, toField).value;
            m.from == None && m.to == None <==>
              (fromField == None || fromField == Some("None")) && (toField == None || toField == Some("None"))
    ensures var m := Validate(productId, qty, fromField, toField).value;
            m.from == None && m.to == None ==> fromField == Some("None") || toField == Some("None")
  {
  }

  /** Quantity 0, quantity -5, and no location at all are each rejected,
      with the rejection for the check that fails first. */
  lemma RejectionExamples(productId: string, loc: string)
    requires productId != "" && loc != ""
    ensures Validate(Some(productId), Some(0), None, Some(loc)) == Failure(ProductOrQuantityMissing)
    ensures Validate(Some(productId), Some(-5), None, Some(loc)) == Failure(ProductOrQuantityMissing)
    ensures Validate(Some(productId), None, None, Some(loc)) == Failure(ProductOrQuantityMissing)
    ensures Validate(Some(""), Some(3), None, Some(loc)) == Failure(ProductOrQuantityMissing)
    ensures Validate(Some(productId), Some(3), None, None) == Failure(NoLocationSelected)
    ensures Validate(Some(productId), Some(3), Some(""), Some("")) == Failure(NoLocationSelected)
  {
  }

  /** The quirk of the checks: "None" for both locations is admitted and
      yields a movement with neither endpoint. */
  lemma NoneForBothIsAdmitted(productId: string, qty: int)
    requires productId != "" && qty > 0
    ensures Validate(Some(productId), Some(qty), Some("None"), Some("None"))
         == Success(Movement(productId, None, None, qty))
  {
  }

  /** Such an endpoint-less movement occupies a ledger row but changes no
      balance: neither pass can join it to a location. */
  lemma NoneForBothIsInert(ledger: seq<Movement>, cat: Catalog, productId: string, qty: int, k: Key)
    requires productId != "" && qty > 0
    ensures Validate(Some(productId), Some(qty), Some("None"), Some("None")).Success?
    ensures Net(ledger + [Validate(Some(productId), Some(qty), Some("None"), Some("None")).value], cat, k)
         == Net(ledger, cat, k)
  {
    NoneForBothIsAdmitted(productId, qty);
    UnjoinedMovementIsInert(ledger, Movement(productId, None, None, qty), cat, k);
  }

  /** The movement table, which only ever grows by one row per accepted
      submission. */
  class Store {
    var movements: seq<Movement>

    constructor (initial: seq<Movement>)
      ensures movements == initial
    {
      movements := initial;
    }

    /** Handle one submitted movement form. `commitSucceeds` stands for the
        outcome of the database commit. On a rejection or a failed commit
        the ledger is unchanged; otherwise exactly the validated movement is
        appended. */
    method SubmitMovement(productId: Option<string>, qty: Option<int>, fromField: Option<string>, toField: Option<string>,
                          commitSucceeds: bool)
      returns (outcome: Result<Movement, SubmitError>)
      modifies this
      ensures var v := Validate(productId, qty, fromField, toField);
              && (v.Failure? ==> outcome == Failure(Rejected(v.error)) && movements == old(movements))
              && (v.Success? && !commitSucceeds ==> outcome == Failure(CommitFailed) && movements == old(movements))
              && (v.Success? && commitSucceeds ==> outcome == Success(v.value) && movements == old(movements) + [v.value])
      ensures |movements| == |old(movements)| + (if outcome.Success? then 1 else 0)
    {
      var v := Validate(productId, qty, fromField, toField);
      if v.Failure? {
        return Failure(Rejected(v.error));
      }
      if !commitSucceeds {
        return Failure(CommitFailed);
      }
      movements := movements + [v.value];
      outcome := Success(v.value);
    }
  }
}
