/** The stub CRM identity check of backend/app/services/crm_service.py. */
module Crm {
  import opened Wrappers
  import opened Strings

  /** The CRM answer: `{"status": ..., "reason": ...}`; the reason key is
      present only on a failure. */
  datatype KycResult = KycResult(status: string, reason: Option<string>)

  const MismatchReason: string := "KYC mismatch in CRM"

  /** Placeholder data: a phone ending in "0000" or an address mentioning
      "test" in any letter case. */
  predicate IsPlaceholder(phone: string, address: string) {
    EndsWith(phone, "0000") || Contains(ToLower(address), "test")
  }

  /** `verify_kyc(phone, address)`. */
  function VerifyKyc(phone: string, address: string): (r: KycResult)
    ensures r.status == "verified" || r.status == "failed"
    ensures r.status == "failed" <==> IsPlaceholder(phone, address)
    ensures r.status == "failed" ==> r.reason == Some(MismatchReason)
    ensures r.status == "verified" ==> r.reason.None?
  {
    if IsPlaceholder(phone, address) then KycResult("failed", Some(MismatchReason))
    else KycResult("verified", None)
  }

  /** Any phone number ending in four zeros fails, whatever the address. */
  lemma {:induction false} ZeroSuffixFails(prefix: string, address: string)
    ensures VerifyKyc(prefix + "0000", address).status == "failed"
  {
    var phone := prefix + "0000";
    assert phone[|phone| - 4..] == "0000";
  }

  /** An address containing "TEST" in capitals fails too. */
  lemma {:induction false} UpperCaseTestFails(phone: string, before: string, after: string)
    ensures VerifyKyc(phone, before + "TEST" + after).status == "failed"
  {
    var a := before + "TEST" + after;
    var l := ToLower(a);
    var i := |before|;
    assert l[i..i + 4] == "test";
    SliceContained(l, i, i + 4);
  }

  /** With the address left empty (as the graph's verification node leaves
      it), only the phone's last four digits decide. */
  lemma {:induction false} EmptyAddressDecidesOnPhone(phone: string)
    ensures VerifyKyc(phone, "").status == "verified" <==> !EndsWith(phone, "0000")
  {
    assert ToLower("") == "";
    assert !Contains("", "test");
  }
}
