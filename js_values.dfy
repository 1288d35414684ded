/** JavaScript truthiness of optional strings, as the source uses it in
    `x || null`: undefined, null and the empty string are all falsy. */
module JsValues {
  import opened Wrappers

  /** `x || null` for `x: string | undefined | null`, with undefined and null
      both written `None`. */
  function OrNull(v: Option<string>): (r: Option<string>)
    ensures r.Some? <==> v.Some? && v.value != ""
    ensures r.Some? ==> r == v
  {
    if v.Some? && v.value != "" then v else None
  }
}
