/**
 * Which resource types the conversion asks WebKit to block while the page
 * loads (SwiftReadability/Readability.swift:23-27, 107-116).
 */
module ContentRules {
  import Wrappers

  /** `ReadabilitySubresourceSuppressionType`. */
  datatype SuppressionType = None | All | AllExceptScripts

  /** The types blocked in every mode that blocks anything; images are among them. */
  const AlwaysBlocked: seq<string> := ["image", "media", "svg-document", "popup", "style-sheet", "font"]

  /**
   * The list `addContentRules` hands to the rule compiler, or `None` when it
   * returns early for `.none` and compiles nothing. The six types of
   * `AlwaysBlocked` always come first, in that order; `"script"` is added
   * after them exactly for `.all`.
   */
  function BlockedResourceTypes(mode: SuppressionType): (r: Wrappers.Option<seq<string>>)
    ensures r.None? <==> mode == None
    ensures r.Some? ==> |r.value| == (if mode == All then 7 else 6) && r.value[..6] == AlwaysBlocked
    ensures r.Some? ==> ("script" in r.value <==> mode == All)
  {
    if mode == None then Wrappers.None
    else if mode == All then Wrappers.Some(AlwaysBlocked + ["script"])
    else Wrappers.Some(AlwaysBlocked)
  }
}
