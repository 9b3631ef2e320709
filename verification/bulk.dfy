/**
 * What bulk customer creation yields, item by item.
 *
 * The batch is walked in input order.  Each item is checked against the
 * customers as they stand when the item is reached -- those stored before the
 * call and those this batch has created so far -- and produces exactly one
 * outcome: a created customer or an error message.  Nothing aborts the batch.
 *
 * An item of the batch may be null (`None`): reading its email then raises,
 * and the loop reports the exception's text like any other error.
 *
 * A failing `save()` is an input here: `faults[i]` is the message of the
 * exception that saving item `i` raises, and an item past the end of
 * `faults` saves without failure.
 */
module BulkIngest {
  import opened Options
  import opened Records
  import Phone

  datatype ItemOutcome = Created(customer: Customer) | Rejected(message: string)

  function DuplicateEmailMessage(email: string): string {
    "Email " + email + " already exists"
  }

  /** The message for a malformed phone, which quotes the phone; an absent phone is always valid, so Python's "None" is never shown. */
  function InvalidPhoneMessage(phone: Option<string>): string {
    "Invalid phone: " + match phone { case Some(p) => p case None => "None" }
  }

  /** The text of the AttributeError raised by reading the email of a null item. */
  const NullItemMessage: string := "'NoneType' object has no attribute 'email'"

  /** Whether saving item `i` raises, and with what message. */
  function FaultAt(faults: seq<Option<string>>, i: nat): Option<string> {
    if i < |faults| then faults[i] else None
  }

  /** The body of the loop for one item, given the customers stored at that moment. */
  function Admit(known: seq<Customer>, data: Option<CustomerInput>, fault: Option<string>): ItemOutcome {
    match data
    case None => Rejected(NullItemMessage)
    case Some(item) =>
      if EmailTaken(known, item.email) then Rejected(DuplicateEmailMessage(item.email))
      else if !Phone.ValidatePhone(item.phone) then Rejected(InvalidPhoneMessage(item.phone))
      else match fault
        case Some(message) => Rejected(message)
        case None => Created(NewCustomer(item))
  }

  /** The customers an outcome sequence creates, in order. */
  function CreatedOf(os: seq<ItemOutcome>): seq<Customer> {
    if os == [] then []
    else
      var last := os[|os| - 1];
      CreatedOf(os[..|os| - 1]) + if last.Created? then [last.customer] else []
  }

  /** The error messages of an outcome sequence, in order. */
  function ErrorsOf(os: seq<ItemOutcome>): seq<string> {
    if os == [] then []
    else
      var last := os[|os| - 1];
      ErrorsOf(os[..|os| - 1]) + if last.Rejected? then [last.message] else []
  }

  /** One outcome per item of the batch. */
  function Outcomes(existing: seq<Customer>, batch: seq<Option<CustomerInput>>, faults: seq<Option<string>>): (os: seq<ItemOutcome>)
    ensures |os| == |batch|
  {
    if batch == [] then []
    else
      var n := |batch| - 1;
      var before := Outcomes(existing, batch[..n], faults);
      before + [Admit(existing + CreatedOf(before), batch[n], FaultAt(faults, n))]
  }

  /** The `customers` list the mutation returns. */
  function CreatedCustomers(existing: seq<Customer>, batch: seq<Option<CustomerInput>>, faults: seq<Option<string>>): seq<Customer> {
    CreatedOf(Outcomes(existing, batch, faults))
  }

  /** The `errors` list the mutation returns. */
  function ErrorMessages(existing: seq<Customer>, batch: seq<Option<CustomerInput>>, faults: seq<Option<string>>): seq<string> {
    ErrorsOf(Outcomes(existing, batch, faults))
  }

  // ---------------------------------------------------------------------
  // Where each entry of the two lists comes from
  // ---------------------------------------------------------------------

  /** The positions of the items that were created, in increasing order. */
  function CreatedPositions(os: seq<ItemOutcome>): (p: seq<nat>)
    ensures |p| == |CreatedOf(os)|
    ensures forall k :: 0 <= k < |p| ==> p[k] < |os| && os[p[k]] == Created(CreatedOf(os)[k])
    ensures forall j, k :: 0 <= j < k < |p| ==> p[j] < p[k]
  {
    if os == [] then []
    else
      var n := |os| - 1;
      CreatedPositions(os[..n]) + if os[n].Created? then [n] else []
  }

  /** The positions of the items that were rejected, in increasing order. */
  function ErrorPositions(os: seq<ItemOutcome>): (p: seq<nat>)
    ensures |p| == |ErrorsOf(os)|
    ensures forall k :: 0 <= k < |p| ==> p[k] < |os| && os[p[k]] == Rejected(ErrorsOf(os)[k])
    ensures forall j, k :: 0 <= j < k < |p| ==> p[j] < p[k]
  {
    if os == [] then []
    else
      var n := |os| - 1;
      ErrorPositions(os[..n]) + if os[n].Rejected? then [n] else []
  }

  lemma {:induction false} OutcomesSplit(os: seq<ItemOutcome>)
    ensures |CreatedOf(os)| + |ErrorsOf(os)| == |os|
  {
    if os != [] {
      OutcomesSplit(os[..|os| - 1]);
    }
  }

  /** A position is among the created positions exactly when its item was created. */
  lemma {:induction false} CreatedPositionsExact(os: seq<ItemOutcome>)
    ensures forall i: int :: i in CreatedPositions(os) <==> 0 <= i < |os| && os[i].Created?
  {
    if os != [] {
      var n := |os| - 1;
      var p := CreatedPositions(os[..n]);
      CreatedPositionsExact(os[..n]);
      assert CreatedPositions(os) == p + if os[n].Created? then [n] else [];
      forall i: int
        ensures i in CreatedPositions(os) <==> 0 <= i < |os| && os[i].Created?
      {
        if 0 <= i < n {
          assert os[..n][i] == os[i];
        }
      }
    }
  }

  /** A position is among the error positions exactly when its item was rejected. */
  lemma {:induction false} ErrorPositionsExact(os: seq<ItemOutcome>)
    ensures forall i: int :: i in ErrorPositions(os) <==> 0 <= i < |os| && os[i].Rejected?
  {
    if os != [] {
      var n := |os| - 1;
      var p := ErrorPositions(os[..n]);
      ErrorPositionsExact(os[..n]);
      assert ErrorPositions(os) == p + if os[n].Rejected? then [n] else [];
      forall i: int
        ensures i in ErrorPositions(os) <==> 0 <= i < |os| && os[i].Rejected?
      {
        if 0 <= i < n {
          assert os[..n][i] == os[i];
        }
      }
    }
  }

  lemma {:induction false} CreatedOfContains(os: seq<ItemOutcome>, j: nat)
    requires j < |os| && os[j].Created?
    ensures os[j].customer in CreatedOf(os)
  {
    var n := |os| - 1;
    if j < n {
      CreatedOfContains(os[..n], j);
    }
  }

  /** Processing a prefix of the batch gives the prefix of the outcomes. */
  lemma {:induction false} OutcomesPrefix(existing: seq<Customer>, batch: seq<Option<CustomerInput>>, faults: seq<Option<string>>, k: nat)
    requires k <= |batch|
    ensures Outcomes(existing, batch[..k], faults) == Outcomes(existing, batch, faults)[..k]
    decreases |batch|
  {
    if k < |batch| {
      var n := |batch| - 1;
      OutcomesPrefix(existing, batch[..n], faults, k);
      assert batch[..n][..k] == batch[..k];
    } else {
      assert batch[..k] == batch;
    }
  }

  /** One more item of the batch adds its outcome to one of the two lists. */
  lemma BulkStep(existing: seq<Customer>, batch: seq<Option<CustomerInput>>, faults: seq<Option<string>>, i: nat)
    requires i < |batch|
    ensures
      var o := Admit(existing + CreatedCustomers(existing, batch[..i], faults), batch[i], FaultAt(faults, i));
      && CreatedCustomers(existing, batch[..i + 1], faults) ==
           CreatedCustomers(existing, batch[..i], faults) + (if o.Created? then [o.customer] else [])
      && ErrorMessages(existing, batch[..i + 1], faults) ==
           ErrorMessages(existing, batch[..i], faults) + (if o.Rejected? then [o.message] else [])
  {
    var os := Outcomes(existing, batch[..i + 1], faults);
    assert batch[..i + 1][..i] == batch[..i];
    assert os[..i] == Outcomes(existing, batch[..i], faults);
  }

  // ---------------------------------------------------------------------
  // The properties of the mutation
  // ---------------------------------------------------------------------

  /**
   * Item `i` is judged against the store as it stands when it is reached:
   * the customers there before the call plus those created from items
   * 0..i-1.  A null item is rejected with the text of the exception its
   * email lookup raises.  Otherwise a taken email is rejected first, then an
   * invalid phone, then a failing save; otherwise the customer is created.
   */
  lemma OutcomeAt(existing: seq<Customer>, batch: seq<Option<CustomerInput>>, faults: seq<Option<string>>, i: nat)
    requires i < |batch|
    ensures
      var known := existing + CreatedCustomers(existing, batch[..i], faults);
      var o := Outcomes(existing, batch, faults)[i];
      && (batch[i].None? ==> o == Rejected(NullItemMessage))
      && (batch[i].Some? ==>
            var item := batch[i].value;
            && (EmailTaken(known, item.email) ==> o == Rejected(DuplicateEmailMessage(item.email)))
            && (!EmailTaken(known, item.email) && !Phone.ValidatePhone(item.phone) ==>
                  o == Rejected(InvalidPhoneMessage(item.phone)))
            && (!EmailTaken(known, item.email) && Phone.ValidatePhone(item.phone) ==>
                  o == match FaultAt(faults, i) { case Some(m) => Rejected(m) case None => Created(NewCustomer(item)) }))
  {
    OutcomesPrefix(existing, batch, faults, i + 1);
    assert batch[..i + 1][..i] == batch[..i];
    var os := Outcomes(existing, batch[..i + 1], faults);
    assert os[..i] == Outcomes(existing, batch[..i], faults);
    assert os[i] == Admit(existing + CreatedCustomers(existing, batch[..i], faults), batch[i], FaultAt(faults, i));
  }

  /** Every item yields exactly one entry, in `customers` or in `errors`. */
  lemma BulkAccountsForEveryItem(existing: seq<Customer>, batch: seq<Option<CustomerInput>>, faults: seq<Option<string>>)
    ensures |CreatedCustomers(existing, batch, faults)| + |ErrorMessages(existing, batch, faults)| == |batch|
  {
    OutcomesSplit(Outcomes(existing, batch, faults));
  }

  /** `customers` is the subsequence, in input order, of the items that were created. */
  lemma BulkCreatedInInputOrder(existing: seq<Customer>, batch: seq<Option<CustomerInput>>, faults: seq<Option<string>>)
    ensures
      var created := CreatedCustomers(existing, batch, faults);
      var p := CreatedPositions(Outcomes(existing, batch, faults));
      && |p| == |created|
      && (forall k :: 0 <= k < |p| ==> p[k] < |batch| && batch[p[k]].Some? && created[k] == NewCustomer(batch[p[k]].value))
      && (forall j, k :: 0 <= j < k < |p| ==> p[j] < p[k])
  {
    var os := Outcomes(existing, batch, faults);
    var p := CreatedPositions(os);
    forall k | 0 <= k < |p|
      ensures batch[p[k]].Some? && CreatedCustomers(existing, batch, faults)[k] == NewCustomer(batch[p[k]].value)
    {
      OutcomeAt(existing, batch, faults, p[k]);
    }
  }

  /** `errors` holds the messages of the rejected items, in input order. */
  lemma BulkErrorsInInputOrder(existing: seq<Customer>, batch: seq<Option<CustomerInput>>, faults: seq<Option<string>>)
    ensures
      var errors := ErrorMessages(existing, batch, faults);
      var os := Outcomes(existing, batch, faults);
      var p := ErrorPositions(os);
      && |p| == |errors|
      && (forall k :: 0 <= k < |p| ==> p[k] < |batch| && os[p[k]] == Rejected(errors[k]))
      && (forall j, k :: 0 <= j < k < |p| ==> p[j] < p[k])
  {
  }

  /**
   * Each item of the batch is reported exactly once: its position is in the
   * positions of `customers` or in those of `errors`, never in both, and no
   * other position appears.
   */
  lemma BulkEachItemInOneList(existing: seq<Customer>, batch: seq<Option<CustomerInput>>, faults: seq<Option<string>>)
    ensures
      var os := Outcomes(existing, batch, faults);
      var c := CreatedPositions(os);
      var e := ErrorPositions(os);
      && (forall i :: 0 <= i < |batch| ==> i in c || i in e)
      && (forall i :: i in c ==> i !in e)
      && (forall i :: i in c || i in e ==> 0 <= i < |batch|)
  {
    CreatedPositionsExact(Outcomes(existing, batch, faults));
    ErrorPositionsExact(Outcomes(existing, batch, faults));
  }

  /** No created customer reuses an email of the store or of another created customer. */
  lemma {:induction false} BulkCreatedEmailsFresh(existing: seq<Customer>, batch: seq<Option<CustomerInput>>, faults: seq<Option<string>>)
    ensures forall k :: 0 <= k < |CreatedCustomers(existing, batch, faults)| ==>
              !EmailTaken(existing, CreatedCustomers(existing, batch, faults)[k].email)
    ensures DistinctEmails(CreatedCustomers(existing, batch, faults))
    ensures DistinctEmails(existing) ==> DistinctEmails(existing + CreatedCustomers(existing, batch, faults))
    decreases |batch|
  {
    if batch != [] {
      var n := |batch| - 1;
      var before := Outcomes(existing, batch[..n], faults);
      var prev := CreatedOf(before);
      BulkCreatedEmailsFresh(existing, batch[..n], faults);
      var last := Admit(existing + prev, batch[n], FaultAt(faults, n));
      assert Outcomes(existing, batch, faults) == before + [last];
      assert (before + [last])[..|before|] == before;
      if last.Created? {
        var c := last.customer;
        assert CreatedCustomers(existing, batch, faults) == prev + [c];
        assert !EmailTaken(existing + prev, c.email);
        assert forall i :: 0 <= i < |prev| ==> (existing + prev)[|existing| + i] == prev[i];
        assert forall i :: 0 <= i < |existing| ==> (existing + prev)[i] == existing[i];
        assert !EmailTaken(existing, c.email);
      } else {
        assert CreatedCustomers(existing, batch, faults) == prev;
      }
    }
  }

  /** Once an item is created, a later item with the same email is rejected as a duplicate. */
  lemma RepeatedEmailRejected(existing: seq<Customer>, batch: seq<Option<CustomerInput>>, faults: seq<Option<string>>, j: nat, i: nat)
    requires j < i < |batch| && batch[j].Some? && batch[i].Some? && batch[j].value.email == batch[i].value.email
    requires Outcomes(existing, batch, faults)[j].Created?
    ensures Outcomes(existing, batch, faults)[i] == Rejected(DuplicateEmailMessage(batch[i].value.email))
  {
    var os := Outcomes(existing, batch, faults);
    OutcomeAt(existing, batch, faults, j);
    OutcomeAt(existing, batch, faults, i);
    OutcomesPrefix(existing, batch, faults, i);
    var before := Outcomes(existing, batch[..i], faults);
    assert before[j] == os[j];
    CreatedOfContains(before, j);
    var prev := CreatedOf(before);
    var m :| 0 <= m < |prev| && prev[m] == os[j].customer;
    assert (existing + prev)[|existing| + m].email == batch[i].value.email;
  }

  /** The batch of the worked example: a, a again, b with a malformed phone, c. */
  function SampleBatch(): seq<Option<CustomerInput>> {
    [ Some(CustomerInput("Ann", "a@x.com", None)),
      Some(CustomerInput("Ann", "a@x.com", None)),
      Some(CustomerInput("Bob", "b@x.com", Some("bad"))),
      Some(CustomerInput("Cy", "c@x.com", None)) ]
  }

  lemma SampleFirstTwo()
    ensures CreatedCustomers([], SampleBatch()[..2], []) == [Customer("Ann", "a@x.com", None)]
    ensures ErrorMessages([], SampleBatch()[..2], []) == [DuplicateEmailMessage("a@x.com")]
  {
    var batch := SampleBatch();
    var input := CustomerInput("Ann", "a@x.com", None);
    var ann := Customer("Ann", "a@x.com", None);
    assert batch[0] == Some(input) && batch[1] == Some(input);
    assert batch[..0] == [];
    BulkStep([], batch, [], 0);
    assert !EmailTaken([], "a@x.com");
    assert Admit([], Some(input), None) == Created(ann);
    assert CreatedCustomers([], batch[..1], []) == [ann];
    assert ErrorMessages([], batch[..1], []) == [];
    BulkStep([], batch, [], 1);
    assert [] + [ann] == [ann];
    assert [ann][0].email == "a@x.com";
    assert Admit([ann], Some(input), None) == Rejected(DuplicateEmailMessage("a@x.com"));
  }

  lemma SampleFirstThree()
    ensures CreatedCustomers([], SampleBatch()[..3], []) == [Customer("Ann", "a@x.com", None)]
    ensures ErrorMessages([], SampleBatch()[..3], []) == [DuplicateEmailMessage("a@x.com"), InvalidPhoneMessage(Some("bad"))]
  {
    var batch := SampleBatch();
    var ann := Customer("Ann", "a@x.com", None);
    SampleFirstTwo();
    BulkStep([], batch, [], 2);
    assert !Phone.ValidatePhone(Some("bad")) by {
      assert !Phone.IsDigit('b');
    }
    assert !EmailTaken([ann], "b@x.com");
    assert Admit([ann], batch[2], None) == Rejected(InvalidPhoneMessage(Some("bad")));
  }

  /** A null item is reported as an error and the items after it are still processed. */
  lemma NullItemExample()
    ensures CreatedCustomers([], [None, Some(CustomerInput("Ann", "a@x.com", None))], []) == [Customer("Ann", "a@x.com", None)]
    ensures ErrorMessages([], [None, Some(CustomerInput("Ann", "a@x.com", None))], []) == [NullItemMessage]
  {
    var batch: seq<Option<CustomerInput>> := [None, Some(CustomerInput("Ann", "a@x.com", None))];
    assert batch[..0] == [];
    BulkStep([], batch, [], 0);
    assert CreatedCustomers([], batch[..1], []) == [];
    BulkStep([], batch, [], 1);
    assert !EmailTaken([], "a@x.com");
    assert batch[..2] == batch;
  }

  /**
   * A batch of four: a duplicate of an email created earlier in the same
   * batch is rejected, and so is a fresh email with a malformed phone.
   */
  lemma ExampleBatch()
    ensures CreatedCustomers([], SampleBatch(), []) == [Customer("Ann", "a@x.com", None), Customer("Cy", "c@x.com", None)]
    ensures ErrorMessages([], SampleBatch(), []) == [DuplicateEmailMessage("a@x.com"), InvalidPhoneMessage(Some("bad"))]
  {
    var batch := SampleBatch();
    var ann := Customer("Ann", "a@x.com", None);
    SampleFirstThree();
    BulkStep([], batch, [], 3);
    assert !EmailTaken([ann], "c@x.com");
    assert Admit([ann], batch[3], None) == Created(Customer("Cy", "c@x.com", None));
    assert batch[..4] == batch;
  }
}
