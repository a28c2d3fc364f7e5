/** The pre-approved offer lookup of backend/app/services/offer_mart_service.py.
    Reading the customer file is left out: the customer list is a parameter. */
module OfferMart {
  import opened Wrappers
  import opened Strings

  /** A customer entry of the data file. */
  datatype Customer = Customer(
    customerId: string, name: string, phone: string, pan: string, city: string,
    creditScore: int, preapprovedPersonalLoanLimit: real)

  /** An offer: the customer projected, with the limit renamed. */
  datatype Offer = Offer(
    customerId: string, name: string, phone: string, pan: string, city: string,
    creditScore: int, preapprovedLimit: real)

  function ToOffer(c: Customer): (o: Offer)
    ensures o.customerId == c.customerId && o.name == c.name && o.phone == c.phone && o.pan == c.pan
    ensures o.city == c.city && o.creditScore == c.creditScore
    ensures o.preapprovedLimit == c.preapprovedPersonalLoanLimit
  {
    Offer(c.customerId, c.name, c.phone, c.pan, c.city, c.creditScore, c.preapprovedPersonalLoanLimit)
  }

  /** `get_offer_mart`: one offer per customer, in the same order. */
  method GetOfferMart(customers: seq<Customer>) returns (offers: seq<Offer>)
    ensures |offers| == |customers|
    ensures forall i :: 0 <= i < |customers| ==> offers[i] == ToOffer(customers[i])
  {
    offers := [];
    var k := 0;
    while k < |customers|
      invariant 0 <= k <= |customers|
      invariant |offers| == k
      invariant forall i :: 0 <= i < k ==> offers[i] == ToOffer(customers[i])
    {
      offers := offers + [ToOffer(customers[k])];
      k := k + 1;
    }
  }

  /** The normalised search keys; an empty key never matches. */
  datatype Keys = Keys(pan: string, phone: string, name: string)

  /** PAN stripped and upper-cased, phone stripped, name stripped and lower-cased. */
  function Normalize(pan: Option<string>, phone: Option<string>, customerName: Option<string>): (k: Keys)
    ensures k.pan == ToUpper(Strip(StrOr(pan, "")))
    ensures k.phone == Strip(StrOr(phone, ""))
    ensures k.name == ToLower(Strip(StrOr(customerName, "")))
  {
    Keys(ToUpper(Strip(StrOr(pan, ""))), Strip(StrOr(phone, "")), ToLower(Strip(StrOr(customerName, ""))))
  }

  /** An offer matches on a non-empty PAN (compared upper-cased), phone, or
      name (compared lower-cased). */
  predicate Matches(o: Offer, k: Keys) {
    (k.pan != "" && ToUpper(o.pan) == k.pan)
    || (k.phone != "" && o.phone == k.phone)
    || (k.name != "" && ToLower(o.name) == k.name)
  }

  /** The first offer in list order that matches. */
  function FindOffer(offers: seq<Offer>, k: Keys): (r: Option<Offer>)
    ensures r.None? <==> forall i :: 0 <= i < |offers| ==> !Matches(offers[i], k)
    ensures r.Some? ==> r.value in offers && Matches(r.value, k)
  {
    if offers == [] then None
    else if Matches(offers[0], k) then Some(offers[0])
    else
      var r := FindOffer(offers[1..], k);
      assert forall i :: 1 <= i < |offers| ==> offers[i] == offers[1..][i - 1];
      r
  }

  /** `find_customer_offer(pan=..., phone=..., customer_name=...)`. */
  function FindCustomerOffer(offers: seq<Offer>, pan: Option<string>, phone: Option<string>, customerName: Option<string>): (r: Option<Offer>)
    ensures r.Some? ==> r.value in offers
  {
    FindOffer(offers, Normalize(pan, phone, customerName))
  }

  /** The result is the first matching offer, whichever key it matched on. */
  lemma {:induction false} FirstMatchWins(offers: seq<Offer>, k: Keys, i: nat)
    requires i < |offers| && Matches(offers[i], k)
    requires forall j :: 0 <= j < i ==> !Matches(offers[j], k)
    ensures FindOffer(offers, k) == Some(offers[i])
    decreases i
  {
    if i > 0 {
      assert offers[1..][i - 1] == offers[i];
      FirstMatchWins(offers[1..], k, i - 1);
    }
  }

  /** There is no priority among the keys across offers: an earlier offer
      matching only by name wins over a later one matching by PAN. */
  lemma {:induction false} NoGlobalKeyPriority(byName: Offer, byPan: Offer, k: Keys)
    requires k.name != "" && ToLower(byName.name) == k.name
    requires k.pan != "" && ToUpper(byPan.pan) == k.pan
    ensures FindOffer([byName, byPan], k) == Some(byName)
  {
  }

  /** Blank keys find nothing. */
  lemma {:induction false} BlankKeysFindNothing(offers: seq<Offer>, pan: Option<string>, phone: Option<string>, customerName: Option<string>)
    requires Strip(StrOr(pan, "")) == "" && Strip(StrOr(phone, "")) == "" && Strip(StrOr(customerName, "")) == ""
    ensures FindCustomerOffer(offers, pan, phone, customerName).None?
  {
    var k := Normalize(pan, phone, customerName);
    assert k.pan == "" && k.phone == "" && k.name == "";
  }

  /** A customer is found by their own PAN in any letter case, provided no
      earlier offer carries the same PAN. */
  lemma {:induction false} FoundByOwnPan(offers: seq<Offer>, i: nat, pan: string)
    requires i < |offers|
    requires pan != "" && Strip(pan) == pan && ToUpper(pan) == ToUpper(offers[i].pan)
    requires forall j :: 0 <= j < i ==> ToUpper(offers[j].pan) != ToUpper(pan)
    ensures FindCustomerOffer(offers, Some(pan), None, None) == Some(offers[i])
  {
    var k := Normalize(Some(pan), None, None);
    assert k == Keys(ToUpper(pan), "", "") by {
      assert StrOr(Some(pan), "") == pan;
      assert StrOr(None, "") == "";
      StripEmpty();
    }
    assert |k.pan| == |pan| > 0;
    PanOnlyKeys(offers, k, i);
    FirstMatchWins(offers, k, i);
  }

  lemma {:induction false} StripEmpty()
    ensures Strip("") == "" && ToLower("") == ""
  {
  }

  lemma {:induction false} PanOnlyKeys(offers: seq<Offer>, k: Keys, i: nat)
    requires i < |offers| && k.pan != "" && k.phone == "" && k.name == ""
    requires ToUpper(offers[i].pan) == k.pan
    requires forall j :: 0 <= j < i ==> ToUpper(offers[j].pan) != k.pan
    ensures Matches(offers[i], k)
    ensures forall j :: 0 <= j < i ==> !Matches(offers[j], k)
  {
  }
}
