/** The decode functions of the two reply-bearing callbacks: they turn the
    host's raw answer (absent, or some encodable value) into what the webview
    acts on. */
module Callbacks {
  import opened Values

  /** NavigationActionPolicy: an enum whose ordinal is whatever int the host
      sent; cancel is ordinal 0 and allow is ordinal 1. */
  datatype NavigationActionPolicy = Policy(ordinal: int32)

  const Cancel: NavigationActionPolicy := Policy(0)
  const Allow: NavigationActionPolicy := Policy(1)

  /** The outcome of a decode: a value, or the std::bad_variant_access that
      std::get<int> throws when the answer is neither null nor an int. */
  datatype Decoded<+T> = Decoded(value: T) | BadVariantAccess

  /** How the host side answers a navigation decision: the policy's ordinal. */
  function EncodePolicy(p: NavigationActionPolicy): Value
  {
    I32(p.ordinal)
  }

  /** ShouldOverrideUrlLoadingCallback's decodeResult. An absent answer or a
      null answer cancels the navigation; an int is the policy with that
      ordinal. A navigation is allowed only on an explicit allow. */
  function DecodeNavigationPolicy(value: Option<Value>): (r: Decoded<NavigationActionPolicy>)
    ensures value.None? || value == Some(Null) ==> r == Decoded(Cancel)
    ensures forall p :: value == Some(EncodePolicy(p)) ==> r == Decoded(p)
    ensures r == Decoded(Allow) <==> value == Some(I32(1))
    ensures r.BadVariantAccess? <==> value.Some? && !value.value.Null? && !value.value.I32?
  {
    if value.None? || value.value.Null? then Decoded(Cancel)
    else if value.value.I32? then Decoded(Policy(value.value.i))
    else BadVariantAccess
  }

  /** CallJsHandlerCallback's decodeResult: the host's answer is handed on
      uninterpreted, so an absent answer and an explicit null stay distinct. */
  function DecodeJsHandlerResult(value: Option<Value>): (r: Option<Value>)
    ensures r.None? <==> value.None?
    ensures r == Some(Null) <==> value == Some(Null)
    ensures r == value
  {
    value
  }
}
