/** The delivery form: two text inputs prefilled from the invoice handoff,
    the rider and admin dropdowns built from the rows of a remote sheet, and
    the submission of one delivery record.

    The network is not modelled: the sheet arrives as already-parsed rows
    (or as a failure), and the outcome of the submission POST is a parameter. */
module Delivery {
  import opened Wrappers
  import opened Session

  datatype FormData = FormData(pickupLocation: string, deliveryFee: string, rider: string, admin: string)

  /** The `name` attributes of the form's inputs. */
  datatype Field = PickupLocation | DeliveryFee | Rider | Admin

  const EmptyForm := FormData("", "", "", "")

  const FillAllFieldsError := "Please fill in all fields"
  const SubmitFailedError := "Failed to submit. Please try again."
  const LoadFailedError := "Unable to load dropdown data. Please refresh the page."

  function Get(fd: FormData, f: Field): string
  {
    match f
    case PickupLocation => fd.pickupLocation
    case DeliveryFee => fd.deliveryFee
    case Rider => fd.rider
    case Admin => fd.admin
  }

  /** `{...prev, [name]: value}`: the named field gets the value, the other three keep theirs. */
  function WithField(fd: FormData, f: Field, value: string): (r: FormData)
    ensures Get(r, f) == value
    ensures forall g :: g != f ==> Get(r, g) == Get(fd, g)
  {
    match f
    case PickupLocation => fd.(pickupLocation := value)
    case DeliveryFee => fd.(deliveryFee := value)
    case Rider => fd.(rider := value)
    case Admin => fd.(admin := value)
  }

  // ---------------------------------------------------------------------
  // Prefill from the handoff
  // ---------------------------------------------------------------------

  /** The transaction-data effect: copy a non-empty summary into pickupLocation. */
  function TransactionPrefill(fd: FormData, transactionData: string): FormData
  {
    if transactionData != "" then WithField(fd, PickupLocation, transactionData) else fd
  }

  /** The delivery-fee effect: copy the fee's string form whenever a fee is given, 0 included.
      The fee is in centavos; `show(n)` stands for `toString` of the amount in pesos, n / 100. */
  function FeePrefill(fd: FormData, deliveryFeeData: Option<int>, show: int -> string): FormData
  {
    if deliveryFeeData.Some? then WithField(fd, DeliveryFee, show(deliveryFeeData.value)) else fd
  }

  /** The form a freshly shown delivery view holds once both effects have run. */
  function Prefilled(transactionData: string, deliveryFeeData: Option<int>, show: int -> string): FormData
  {
    FeePrefill(TransactionPrefill(EmptyForm, transactionData), deliveryFeeData, show)
  }

  /** What the fresh form shows: the summary (or nothing for an empty summary),
      the fee as a string when one is given, and no rider or admin. */
  lemma PrefilledFields(transactionData: string, deliveryFeeData: Option<int>, show: int -> string)
    ensures Prefilled(transactionData, deliveryFeeData, show).pickupLocation == transactionData
    ensures Prefilled(transactionData, deliveryFeeData, show).deliveryFee ==
      if deliveryFeeData.Some? then show(deliveryFeeData.value) else ""
    ensures Prefilled(transactionData, deliveryFeeData, show).rider == ""
    ensures Prefilled(transactionData, deliveryFeeData, show).admin == ""
  {
    var t := TransactionPrefill(EmptyForm, transactionData);
    assert Get(t, PickupLocation) == transactionData;
    assert Get(t, DeliveryFee) == "" && Get(t, Rider) == "" && Get(t, Admin) == "";
    var r := FeePrefill(t, deliveryFeeData, show);
    assert Get(r, PickupLocation) == transactionData;
    assert Get(r, Rider) == "" && Get(r, Admin) == "";
  }

  // ---------------------------------------------------------------------
  // Validation and the submission record
  // ---------------------------------------------------------------------

  /** The check of handleSubmit: some field is empty. */
  predicate HasMissingField(fd: FormData)
  {
    fd.pickupLocation == "" || fd.deliveryFee == "" || fd.rider == "" || fd.admin == ""
  }

  lemma MissingFieldIffSomeFieldEmpty(fd: FormData)
    ensures HasMissingField(fd) <==> exists f :: Get(fd, f) == ""
  {
    if HasMissingField(fd) {
      var f :=
        if fd.pickupLocation == "" then PickupLocation
        else if fd.deliveryFee == "" then DeliveryFee
        else if fd.rider == "" then Rider
        else Admin;
      assert Get(fd, f) == "";
    }
  }

  datatype Submission = Submission(
    pickupLocation: string,
    deliveryFee: string,
    rider: string,
    admin: string,
    encoder: string,
    timestamp: string)

  /** `userInfo?.username || 'Unknown'` */
  function Encoder(user: Option<UserInfo>): (r: string)
    ensures r != ""
    ensures user.Some? && user.value.username != "" ==> r == user.value.username
    ensures user.None? || user.value.username == "" ==> r == "Unknown"
  {
    if user.Some? && user.value.username != "" then user.value.username else "Unknown"
  }

  function BuildSubmission(fd: FormData, user: Option<UserInfo>, timestamp: string): Submission
  {
    Submission(fd.pickupLocation, fd.deliveryFee, fd.rider, fd.admin, Encoder(user), timestamp)
  }

  /** The four form fields carried by a record. */
  function FormOf(s: Submission): FormData
  {
    FormData(s.pickupLocation, s.deliveryFee, s.rider, s.admin)
  }

  /** The record copies the form verbatim and stamps the encoder and the time. */
  lemma SubmissionCopiesForm(fd: FormData, user: Option<UserInfo>, timestamp: string)
    ensures FormOf(BuildSubmission(fd, user, timestamp)) == fd
    ensures BuildSubmission(fd, user, timestamp).encoder == Encoder(user)
    ensures BuildSubmission(fd, user, timestamp).timestamp == timestamp
  {
  }

  // ---------------------------------------------------------------------
  // Dropdown options
  // ---------------------------------------------------------------------

  /** One parsed row of the sheet; a missing column is `None`. */
  datatype Row = Row(riderCell: Option<string>, adminCell: Option<string>)

  datatype Column = RiderColumn | AdminColumn

  function Cell(row: Row, col: Column): Option<string>
  {
    match col
    case RiderColumn => row.riderCell
    case AdminColumn => row.adminCell
  }

  /** The characters `String.prototype.trim` removes: white space and line terminators. */
  predicate IsTrimmed(c: char)
  {
    c == '\t' || c == '\n' || c == '\U{000B}' || c == '\U{000C}' || c == '\r' || c == ' '
    || c == '\U{00A0}' || c == '\U{1680}' || ('\U{2000}' <= c <= '\U{200A}')
    || c == '\U{2028}' || c == '\U{2029}' || c == '\U{202F}' || c == '\U{205F}'
    || c == '\U{3000}' || c == '\U{FEFF}'
  }

  /** `s.trim() === ''` */
  predicate IsBlank(s: string)
  {
    forall i :: 0 <= i < |s| ==> IsTrimmed(s[i])
  }

  /** The filter `v && v.trim() !== ''`: present and not blank. */
  predicate Usable(v: Option<string>)
  {
    v.Some? && !IsBlank(v.value)
  }

  /** The column's usable values in row order, untrimmed (the map and filter). */
  function Candidates(rows: seq<Row>, col: Column): seq<string>
  {
    if rows == [] then []
    else (if Usable(Cell(rows[0], col)) then [Cell(rows[0], col).value] else []) + Candidates(rows[1..], col)
  }

  /** `[...new Set(xs)]`: each value once, at its first occurrence. */
  function Distinct(xs: seq<string>): seq<string>
  {
    if xs == [] then []
    else
      var seen := Distinct(xs[..|xs| - 1]);
      if xs[|xs| - 1] in seen then seen else seen + [xs[|xs| - 1]]
  }

  /** The options of one dropdown (riders or admins). */
  function Options(rows: seq<Row>, col: Column): seq<string>
  {
    Distinct(Candidates(rows, col))
  }

  predicate NoDuplicates(xs: seq<string>)
  {
    forall i, j :: 0 <= i < j < |xs| ==> xs[i] != xs[j]
  }

  /** Index of the first occurrence of `x`. */
  function FirstIndex(xs: seq<string>, x: string): (k: nat)
    requires x in xs
    ensures k < |xs| && xs[k] == x && x !in xs[..k]
  {
    if xs[0] == x then 0 else 1 + FirstIndex(xs[1..], x)
  }

  lemma {:induction false} DistinctMembers(xs: seq<string>)
    ensures forall x :: x in Distinct(xs) <==> x in xs
    ensures NoDuplicates(Distinct(xs))
  {
    if xs != [] {
      var init := xs[..|xs| - 1];
      DistinctMembers(init);
      assert xs == init + [xs[|xs| - 1]];
    }
  }

  lemma FirstIndexInPrefix(xs: seq<string>, x: string, y: string)
    requires x in xs
    ensures FirstIndex(xs + [y], x) == FirstIndex(xs, x)
  {
    var k := FirstIndex(xs, x);
    var k' := FirstIndex(xs + [y], x);
    assert (xs + [y])[k] == x;
  }

  /** The options keep the order of first occurrence. */
  lemma {:induction false} DistinctKeepsFirstOccurrenceOrder(xs: seq<string>)
    ensures forall x :: x in Distinct(xs) ==> x in xs
    ensures forall i, j :: 0 <= i < j < |Distinct(xs)| ==>
      FirstIndex(xs, Distinct(xs)[i]) < FirstIndex(xs, Distinct(xs)[j])
  {
    DistinctMembers(xs);
    if xs != [] {
      var init := xs[..|xs| - 1];
      var last := xs[|xs| - 1];
      assert xs == init + [last];
      DistinctKeepsFirstOccurrenceOrder(init);
      DistinctMembers(init);
      var r := Distinct(xs);
      var seen := Distinct(init);
      forall i, j | 0 <= i < j < |r| ensures FirstIndex(xs, r[i]) < FirstIndex(xs, r[j]) {
        assert r[i] == seen[i];
        FirstIndexInPrefix(init, seen[i], last);
        if j < |seen| {
          assert r[j] == seen[j];
          FirstIndexInPrefix(init, seen[j], last);
        } else {
          assert r[j] == last && last !in init;
          assert FirstIndex(xs, last) == |init|;
        }
      }
    }
  }

  lemma {:induction false} CandidatesMembers(rows: seq<Row>, col: Column)
    ensures forall x :: x in Candidates(rows, col) <==>
      exists i :: 0 <= i < |rows| && Cell(rows[i], col) == Some(x) && !IsBlank(x)
  {
    if rows != [] {
      CandidatesMembers(rows[1..], col);
      forall x | (exists i :: 0 <= i < |rows| && Cell(rows[i], col) == Some(x) && !IsBlank(x))
        ensures x in Candidates(rows, col)
      {
        var i :| 0 <= i < |rows| && Cell(rows[i], col) == Some(x) && !IsBlank(x);
        if i > 0 {
          assert rows[1..][i - 1] == rows[i];
        }
      }
      forall x | x in Candidates(rows[1..], col)
        ensures exists i :: 0 <= i < |rows| && Cell(rows[i], col) == Some(x) && !IsBlank(x)
      {
        var i :| 0 <= i < |rows[1..]| && Cell(rows[1..][i], col) == Some(x) && !IsBlank(x);
        assert rows[i + 1] == rows[1..][i];
      }
    }
  }

  /** A dropdown lists each usable value of its column exactly once, untrimmed,
      and nothing else. */
  lemma OptionsSpec(rows: seq<Row>, col: Column)
    ensures NoDuplicates(Options(rows, col))
    ensures forall x :: x in Options(rows, col) <==>
      exists i :: 0 <= i < |rows| && Cell(rows[i], col) == Some(x) && !IsBlank(x)
  {
    DistinctMembers(Candidates(rows, col));
    CandidatesMembers(rows, col);
  }

  /** The form's state; a new one is created each time the delivery view is shown. */
  class DeliveryForm {
    var formData: FormData
    var riders: seq<string>
    var admins: seq<string>
    var loading: bool
    var submitting: bool
    var error: Option<string>
    var success: bool
    /** The user read from storage at mount (JSON parsing is not modelled). */
    var userInfo: Option<UserInfo>

    /** Mount: the initial state, then the two prefill effects. */
    constructor (transactionData: string, deliveryFeeData: Option<int>, show: int -> string,
                 storedUser: Option<UserInfo>)
      ensures formData == Prefilled(transactionData, deliveryFeeData, show)
      ensures riders == [] && admins == [] && loading && !submitting
      ensures error == None && !success && userInfo == storedUser
    {
      formData := EmptyForm;
      riders := [];
      admins := [];
      loading := true;
      submitting := false;
      error := None;
      success := false;
      userInfo := storedUser;
      new;
      PrefillTransaction(transactionData);
      PrefillDeliveryFee(deliveryFeeData, show);
    }

    method PrefillTransaction(transactionData: string)
      modifies this
      ensures formData == TransactionPrefill(old(formData), transactionData)
      ensures riders == old(riders) && admins == old(admins) && loading == old(loading)
      ensures submitting == old(submitting) && error == old(error) && success == old(success)
      ensures userInfo == old(userInfo)
    {
      if transactionData != "" {
        formData := formData.(pickupLocation := transactionData);
      }
    }

    method PrefillDeliveryFee(deliveryFeeData: Option<int>, show: int -> string)
      modifies this
      ensures formData == FeePrefill(old(formData), deliveryFeeData, show)
      ensures riders == old(riders) && admins == old(admins) && loading == old(loading)
      ensures submitting == old(submitting) && error == old(error) && success == old(success)
      ensures userInfo == old(userInfo)
    {
      if deliveryFeeData.Some? {
        formData := formData.(deliveryFee := show(deliveryFeeData.value));
      }
    }

    /** loadDropdownData, with the fetched and parsed sheet as input (None: fetch or parse failed). */
    method LoadDropdownData(sheet: Option<seq<Row>>)
      modifies this
      ensures !loading
      ensures sheet.Some? ==> riders == Options(sheet.value, RiderColumn) &&
                              admins == Options(sheet.value, AdminColumn) && error == old(error)
      ensures sheet.None? ==> riders == old(riders) && admins == old(admins) &&
                              error == Some(LoadFailedError)
      ensures formData == old(formData) && submitting == old(submitting) && success == old(success)
      ensures userInfo == old(userInfo)
    {
      if sheet.Some? {
        riders := Options(sheet.value, RiderColumn);
        admins := Options(sheet.value, AdminColumn);
      } else {
        error := Some(LoadFailedError);
      }
      loading := false;
    }

    /** handleInputChange */
    method HandleInputChange(field: Field, value: string)
      modifies this
      ensures formData == WithField(old(formData), field, value)
      ensures riders == old(riders) && admins == old(admins) && loading == old(loading)
      ensures submitting == old(submitting) && error == old(error) && success == old(success)
      ensures userInfo == old(userInfo)
    {
      formData := WithField(formData, field, value);
    }

    /** handleSubmit; `delivered` says whether the POST completed without throwing.
        Returns the record handed to the POST, if one was. */
    method HandleSubmit(delivered: bool, timestamp: string) returns (sent: Option<Submission>)
      modifies this
      ensures HasMissingField(old(formData)) ==>
        sent == None && formData == old(formData) && error == Some(FillAllFieldsError) &&
        success == old(success) && submitting == old(submitting)
      ensures !HasMissingField(old(formData)) ==>
        sent == Some(BuildSubmission(old(formData), userInfo, timestamp)) && !submitting
      ensures !HasMissingField(old(formData)) && delivered ==>
        success && error == None && formData == EmptyForm
      ensures !HasMissingField(old(formData)) && !delivered ==>
        !success && error == Some(SubmitFailedError) && formData == old(formData)
      ensures riders == old(riders) && admins == old(admins) && loading == old(loading)
      ensures userInfo == old(userInfo)
    {
      if formData.pickupLocation == "" || formData.deliveryFee == "" || formData.rider == "" || formData.admin == "" {
        error := Some(FillAllFieldsError);
        return None;
      }
      submitting := true;
      error := None;
      success := false;
      var record := BuildSubmission(formData, userInfo, timestamp);
      sent := Some(record);
      if delivered {
        success := true;
        formData := EmptyForm;
      } else {
        error := Some(SubmitFailedError);
      }
      submitting := false;
    }
  }
}
