/** Values and JavaScript idioms shared by the server and the client model:
    optional fields, the truthiness that `||` defaults rely on, and
    `Array.prototype.find`. */
module Common {

  /** An optional field of a JSON record; `None` stands for both `undefined`
      and `null`. */
  datatype Option<+T> = None | Some(value: T)

  /** JavaScript truthiness of an optional string: absent and `""` are falsy. */
  predicate Truthy(s: Option<string>) {
    s.Some? && s.value != ""
  }

  /** `s || fallback` for an optional string and a string fallback. */
  function StrOr(s: Option<string>, fallback: string): (r: string)
    ensures Truthy(s) ==> Some(r) == s
    ensures !Truthy(s) ==> r == fallback
  {
    if Truthy(s) then s.value else fallback
  }

  /** `s || t` where both operands are optional strings: the first if it is
      truthy, otherwise the second whatever it is. */
  function OptOr(s: Option<string>, t: Option<string>): (r: Option<string>)
    ensures Truthy(r) <==> Truthy(s) || Truthy(t)
    ensures Truthy(s) ==> r == s
  {
    if Truthy(s) then s else t
  }

  /** `n || 0` for an optional number (a present 0 is falsy and also yields 0). */
  function NumOr0(n: Option<real>): (r: real)
    ensures n.None? ==> r == 0.0
  {
    if n.Some? then n.value else 0.0
  }

  /** `Array.prototype.find`, returning the position of the first element
      that satisfies `p`, or `None` when no element does. */
  function FindIndex<T>(s: seq<T>, p: T -> bool): (r: Option<nat>)
    ensures r.Some? ==> r.value < |s| && p(s[r.value])
    ensures r.Some? ==> forall j :: 0 <= j < r.value ==> !p(s[j])
    ensures r.None? <==> forall j :: 0 <= j < |s| ==> !p(s[j])
    decreases |s|
  {
    if |s| == 0 then None
    else if p(s[0]) then Some(0)
    else
      match FindIndex(s[1..], p)
      case None => None
      case Some(k) => Some(k + 1)
  }

  function Min(a: int, b: int): (m: int)
    ensures m <= a && m <= b && (m == a || m == b)
  {
    if a <= b then a else b
  }
}
