/** The JSON values a language-model reply carries to the legacy session
    agents. The agents test them with `isinstance`, truthiness and equality,
    so only the kind of each value matters to them. */
module LlmJson {
  import opened Wrappers
  import opened Strings

  datatype Json = JNull | JBool(b: bool) | JNum(n: real) | JStr(s: string) | JArray | JObject

  /** `isinstance(v, str) and v.strip()`. */
  predicate IsNonBlankString(v: Json) {
    v.JStr? && Strip(v.s) != ""
  }

  /** `_coerce_str(value)`, which each legacy agent defines alike: the
      stripped text of a non-blank string. */
  function CoerceStr(v: Json): (r: Option<string>)
    ensures r.Some? <==> IsNonBlankString(v)
    ensures r.Some? ==> r.value == Strip(v.s) && r.value != ""
  {
    if IsNonBlankString(v) then Some(Strip(v.s)) else None
  }

  /** `v == text` for a string literal `text`. */
  predicate IsText(v: Json, text: string) {
    v == JStr(text)
  }
}
