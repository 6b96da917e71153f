/** The order form: merging an order fetched from `/api/orders` into the
    form, editing one field, and the submit validation. */
module OrderForm {
  import opened Common
  import Orders

  datatype FormData = FormData(fullName: string, email: string, phone: string, address: string)

  /** The `name` attribute of the four inputs. */
  datatype FieldName = FullName | Email | Phone | Address

  /** The `order` object of a GET reply; a key the record lacks is None. */
  datatype FetchedOrder = FetchedOrder(
    name: Option<string>,
    email: Option<string>,
    phone: Option<string>,
    address: Option<string>,
    orderId: Option<string>)

  /** The parts of the component state the fetch touches. */
  datatype FormState = FormState(data: FormData, orderId: Option<string>, autoFilled: bool)

  const EmptyForm: FormData := FormData("", "", "", "")

  /** `v !== s`, where an undefined value differs from every string. */
  predicate Differs(v: Option<string>, s: string) {
    v != Some(s)
  }

  /** `hasNewData`: some fetched field differs from its form field. */
  predicate HasNewData(o: FetchedOrder, f: FormData) {
    Differs(o.name, f.fullName) || Differs(o.email, f.email)
    || Differs(o.phone, f.phone) || Differs(o.address, f.address)
  }

  /** Some fetched contact field is non-empty. */
  predicate AnyFetched(o: FetchedOrder) {
    Truthy(o.name) || Truthy(o.email) || Truthy(o.phone) || Truthy(o.address)
  }

  /** Some fetched contact field is non-empty and differs from the form's:
      the merge would change the form. */
  predicate Newer(o: FetchedOrder, f: FormData) {
    (Truthy(o.name) && o.name.value != f.fullName) || (Truthy(o.email) && o.email.value != f.email)
    || (Truthy(o.phone) && o.phone.value != f.phone) || (Truthy(o.address) && o.address.value != f.address)
  }

  /** The new form values: each fetched field when truthy, else the form's. */
  function MergeFetched(o: FetchedOrder, f: FormData): (r: FormData)
    // each field is the fetched one when that is non-empty, else the form's
    ensures Truthy(o.name) ==> r.fullName == o.name.value
    ensures !Truthy(o.name) ==> r.fullName == f.fullName
    ensures Truthy(o.email) ==> r.email == o.email.value
    ensures !Truthy(o.email) ==> r.email == f.email
    ensures Truthy(o.phone) ==> r.phone == o.phone.value
    ensures !Truthy(o.phone) ==> r.phone == f.phone
    ensures Truthy(o.address) ==> r.address == o.address.value
    ensures !Truthy(o.address) ==> r.address == f.address
    // empty fetched data never clears a filled field
    ensures f.fullName != "" ==> r.fullName != ""
    ensures f.email != "" ==> r.email != ""
    ensures f.phone != "" ==> r.phone != ""
    ensures f.address != "" ==> r.address != ""
    // a field changes only to a non-empty fetched value
    ensures r.fullName != f.fullName ==> Truthy(o.name) && r.fullName == o.name.value
    ensures r.email != f.email ==> Truthy(o.email) && r.email == o.email.value
    ensures r.phone != f.phone ==> Truthy(o.phone) && r.phone == o.phone.value
    ensures r.address != f.address ==> Truthy(o.address) && r.address == o.address.value
  {
    FormData(OrElse(o.name, f.fullName), OrElse(o.email, f.email),
             OrElse(o.phone, f.phone), OrElse(o.address, f.address))
  }

  /** One fetch step, given the form as it is now and updating only when the
      fetched order would change it. `fetched` is None when the request
      failed, the reply was not OK, or it carried no order. */
  function ApplyFetch(userId: Option<string>, fetched: Option<FetchedOrder>, st: FormState): (r: FormState)
    ensures !Truthy(userId) || fetched.None? ==> r == st
    ensures fetched.Some? && !Newer(fetched.value, st.data) ==> r == st
    // the form always ends up holding the merge of the fetched order
    ensures Truthy(userId) && fetched.Some? ==> r.data == MergeFetched(fetched.value, st.data)
    ensures Truthy(userId) && fetched.Some? && Newer(fetched.value, st.data) ==>
              var o := fetched.value;
              && r.orderId == (if Truthy(o.orderId) then o.orderId else st.orderId)
              && r.autoFilled
  {
    if !Truthy(userId) || fetched.None? then st
    else
      var o := fetched.value;
      if !Newer(o, st.data) then (NotNewerMeansNoChange(o, st.data); st)
      else FormState(MergeFetched(o, st.data),
                     if Truthy(o.orderId) then o.orderId else st.orderId,
                     st.autoFilled || AnyFetched(o))
  }

  /** When nothing is new, the merge itself would change nothing: the
      `hasNewData` guard only skips merges that are no-ops on the form. */
  lemma NoNewDataMeansNoChange(o: FetchedOrder, f: FormData)
    requires !HasNewData(o, f)
    ensures MergeFetched(o, f) == f
  {
  }

  /** `Newer` is exactly "the merge changes the form". */
  lemma NewerIffChanges(o: FetchedOrder, f: FormData)
    ensures Newer(o, f) <==> MergeFetched(o, f) != f
  {
    if Newer(o, f) {
      var m := MergeFetched(o, f);
      if Truthy(o.name) && o.name.value != f.fullName {
        assert m.fullName != f.fullName;
      } else if Truthy(o.email) && o.email.value != f.email {
        assert m.email != f.email;
      } else if Truthy(o.phone) && o.phone.value != f.phone {
        assert m.phone != f.phone;
      } else {
        assert m.address != f.address;
      }
    }
  }

  lemma NotNewerMeansNoChange(o: FetchedOrder, f: FormData)
    requires !Newer(o, f)
    ensures MergeFetched(o, f) == f
  {
    NewerIffChanges(o, f);
  }

  /** Merging the same fetched order twice is merging it once. */
  lemma MergeFetchedIdempotent(o: FetchedOrder, f: FormData)
    ensures MergeFetched(o, MergeFetched(o, f)) == MergeFetched(o, f)
  {
  }

  /** Once an order has been merged, the next poll of the same order finds
      nothing new and changes nothing, whichever fields the order has. */
  lemma PollingSettles(userId: Option<string>, o: FetchedOrder, st: FormState)
    ensures !Newer(o, MergeFetched(o, st.data))
    ensures var once := ApplyFetch(userId, Some(o), st);
            ApplyFetch(userId, Some(o), once) == once
  {
    var once := ApplyFetch(userId, Some(o), st);
    if Truthy(userId) {
      MergeFetchedIdempotent(o, st.data);
      NewerIffChanges(o, MergeFetched(o, st.data));
    }
  }

  /** A fetched order as the store hands it out: every contact field is
      undefined or non-empty (`Orders.MergedNeverStoresEmpty`). */
  predicate FromStore(o: FetchedOrder) {
    o.name != Some("") && o.email != Some("") && o.phone != Some("") && o.address != Some("")
  }

  /** Against an up-to-date form (the stale-snapshot fix applied), the
      `hasNewData` guard settles for a fully filled order. */
  lemma FullOrderSettlesAsWritten(o: FetchedOrder, f: FormData)
    requires Truthy(o.name) && Truthy(o.email) && Truthy(o.phone) && Truthy(o.address)
    ensures !HasNewData(o, MergeFetched(o, f))
  {
  }

  /** But even against an up-to-date form, a stored order without a phone
      (the phone is optional) is "new" after every merge: `undefined !== ""`. */
  lemma MissingPhoneNeverSettles(o: FetchedOrder, f: FormData)
    requires o.phone == None && f.phone == ""
    ensures HasNewData(o, MergeFetched(o, f))
  {
  }

  // ---------------------------------------------------------------------
  // The polling callback as written

  /** The fetch step the polling interval actually runs: the callback was
      created when the effect ran (on mount), so it compares with and merges
      into the form as it was then (`snapshot`), not the current one. */
  function ApplyFetchAsWritten(userId: Option<string>, fetched: Option<FetchedOrder>,
                               snapshot: FormData, st: FormState): (r: FormState)
    // with an up-to-date snapshot the form data agrees with the corrected step
    ensures snapshot == st.data ==> r.data == ApplyFetch(userId, fetched, st).data
    // and so does the whole state whenever the two guards agree
    ensures snapshot == st.data && (fetched.Some? ==> (HasNewData(fetched.value, snapshot) <==> Newer(fetched.value, snapshot))) ==>
              r == ApplyFetch(userId, fetched, st)
  {
    if !Truthy(userId) || fetched.None? then st
    else
      var o := fetched.value;
      if !HasNewData(o, snapshot) then st
      else FormState(MergeFetched(o, snapshot),
                     if Truthy(o.orderId) then o.orderId else st.orderId,
                     st.autoFilled || AnyFetched(o))
  }

  /** With the snapshot kept up to date but the guard as written, an order
      without a phone never settles: with the form already holding the merge
      and the notice hidden again, every poll shows the auto-fill notice
      anew, where the corrected step leaves the state alone. */
  lemma NoticeReraisedEveryPoll(userId: Option<string>, o: FetchedOrder, f: FormData, orderId: Option<string>)
    requires Truthy(userId) && o.phone == None && f.phone == "" && AnyFetched(o)
    ensures var m := MergeFetched(o, f);
            var st := FormState(m, orderId, false);
            && ApplyFetchAsWritten(userId, Some(o), m, st).autoFilled
            && ApplyFetchAsWritten(userId, Some(o), m, st).data == m
            && ApplyFetch(userId, Some(o), st) == st
  {
    var m := MergeFetched(o, f);
    MissingPhoneNeverSettles(o, f);
    MergeFetchedIdempotent(o, f);
    NotNewerAfterMerge(o, f);
  }

  lemma NotNewerAfterMerge(o: FetchedOrder, f: FormData)
    ensures !Newer(o, MergeFetched(o, f))
  {
    MergeFetchedIdempotent(o, f);
    NewerIffChanges(o, MergeFetched(o, f));
  }

  /** As shipped, the callback compares with the empty form captured at
      mount, and the store never hands out "": every stored order with some
      contact field is "new" on every poll. */
  lemma EveryStoredOrderNewAtMount(o: FetchedOrder)
    requires FromStore(o) && AnyFetched(o)
    ensures HasNewData(o, EmptyForm)
  {
  }

  /** So, as shipped, every stored order (phone or not) shows the auto-fill
      notice again on every poll, though the form already holds it; the
      corrected step leaves the state alone. */
  lemma NoticeReraisedAsShipped(userId: Option<string>, o: FetchedOrder, orderId: Option<string>)
    requires Truthy(userId) && FromStore(o) && AnyFetched(o)
    ensures var m := MergeFetched(o, EmptyForm);
            var st := FormState(m, orderId, false);
            && ApplyFetchAsWritten(userId, Some(o), EmptyForm, st).autoFilled
            && ApplyFetchAsWritten(userId, Some(o), EmptyForm, st).data == m
            && ApplyFetch(userId, Some(o), st) == st
  {
    EveryStoredOrderNewAtMount(o);
    NotNewerAfterMerge(o, EmptyForm);
  }

  /** The stale snapshot loses user input: the user has typed an email,
      the stored order so far has only a name, and the poll empties the
      email field again. The corrected step keeps it. */
  lemma StalePollClearsTypedEmail()
    ensures var st := FormState(FormData("", "jo@example.com", "", ""), None, false);
            var o := Some(FetchedOrder(Some("Jo"), None, None, None, None));
            && ApplyFetchAsWritten(Some("U1"), o, EmptyForm, st).data.email == ""
            && ApplyFetch(Some("U1"), o, st).data.email == "jo@example.com"
  {
    var o := FetchedOrder(Some("Jo"), None, None, None, None);
    assert HasNewData(o, EmptyForm);
    assert Newer(o, FormData("", "jo@example.com", "", ""));
  }

  // ---------------------------------------------------------------------
  // Editing and submitting

  /** `handleChange`: the named field takes the typed value. */
  function SetField(f: FormData, name: FieldName, value: string): (r: FormData)
    ensures name == FullName ==> r == f.(fullName := value)
    ensures name == Email ==> r == f.(email := value)
    ensures name == Phone ==> r == f.(phone := value)
    ensures name == Address ==> r == f.(address := value)
  {
    match name
    case FullName => f.(fullName := value)
    case Email => f.(email := value)
    case Phone => f.(phone := value)
    case Address => f.(address := value)
  }

  /** `isFormComplete`: name, email and address are filled; phone is optional. */
  predicate IsFormComplete(f: FormData) {
    f.fullName != "" && f.email != "" && f.address != ""
  }

  /** What `handleSubmit` does with the form. */
  datatype SubmitOutcome =
    | Rejected                        // an alert; nothing is sent or marked
    | MarkedSubmitted                 // no user id: only the local "submitted" flag
    | Sent(body: Orders.PostBody)     // POST /api/orders, then the flag

  /** `handleSubmit`: the form is rejected unless name, email and address
      are filled; a complete form is posted when there is a user id, with
      the four form values and status "submitted", and only marked
      submitted otherwise. */
  function Submit(userId: Option<string>, f: FormData): (r: SubmitOutcome)
    ensures r.Rejected? <==> !IsFormComplete(f)
    ensures r.MarkedSubmitted? <==> IsFormComplete(f) && !Truthy(userId)
    ensures r.Sent? <==> IsFormComplete(f) && Truthy(userId)
    ensures r.Sent? ==> r.body == Orders.PostBody(userId, Some(f.fullName), Some(f.email), Some(f.phone),
                                                  Some(f.address), None, Some("submitted"), None)
  {
    if f.fullName == "" || f.email == "" || f.address == "" then Rejected
    else if !Truthy(userId) then MarkedSubmitted
    else Sent(Orders.PostBody(userId, Some(f.fullName), Some(f.email), Some(f.phone), Some(f.address),
                              None, Some("submitted"), None))
  }

  /** Editing only the phone never changes whether the form can be submitted. */
  lemma PhoneIsOptional(f: FormData, phone: string)
    ensures IsFormComplete(SetField(f, Phone, phone)) == IsFormComplete(f)
  {
  }

  /** A submitted form lands in the store: the stored name, email and address
      are the form's; the phone is the form's unless it was left empty, in
      which case the stored one stays. The "submitted" status is not stored. */
  lemma SubmitStoresForm(userId: string, f: FormData, existing: Option<Orders.OrderRecord>, now: string)
    requires userId != "" && IsFormComplete(f)
    ensures Submit(Some(userId), f).Sent?
    ensures var rec := Orders.Merged(existing, userId, Submit(Some(userId), f).body, now);
            && rec.name == Some(f.fullName) && rec.email == Some(f.email) && rec.address == Some(f.address)
            && rec.phone == (if f.phone != "" then Some(f.phone)
                             else if existing.Some? then existing.value.phone else None)
            && rec.updatedAt == now
  {
  }
}
