/** JavaScript's truthiness on the optional string fields of a decoded
    JSON object, and the `value || fallback` defaulting built on it. */
module JsValue {
  import opened Wrappers

  /** A string field is truthy when it is present and not empty; `None`
      stands for every falsy value (`undefined`, `null`). */
  predicate Truthy(v: Option<string>) {
    v.Some? && v.value != ""
  }

  /** The text the scraped fields fall back to. */
  const Unknown := "unknown"

  /** `v || fallback`: the value when it is truthy, else the fallback; so
      a non-empty fallback never yields an empty string. */
  function OrDefault(v: Option<string>, fallback: string): (r: string)
    ensures Truthy(v) ==> r == v.value
    ensures !Truthy(v) ==> r == fallback
    ensures fallback != "" ==> r != ""
    ensures r == fallback || Truthy(Some(r))
  {
    if Truthy(v) then v.value else fallback
  }
}
