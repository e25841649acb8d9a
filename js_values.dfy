/** JavaScript truthiness and the `||` default idiom, for the values the frontend reads. */
module JsValues {
  import opened Wrappers

  /** A string-valued property: absent (`null`/`undefined`) or a string; the empty string is falsy. */
  predicate TruthyStr(v: Option<string>) {
    v.Some? && v.value != ""
  }

  /** A number-valued property: absent or a number; `0` is falsy. */
  predicate TruthyNum(v: Option<int>) {
    v.Some? && v.value != 0
  }

  /** `a || b` on string-valued properties. */
  function OrStr(a: Option<string>, b: Option<string>): (r: Option<string>)
    ensures TruthyStr(a) ==> r == a
    ensures !TruthyStr(a) ==> r == b
  {
    if TruthyStr(a) then a else b
  }

  /** `a || b` on number-valued properties. */
  function OrNum(a: Option<int>, b: Option<int>): (r: Option<int>)
    ensures TruthyNum(a) ==> r == a
    ensures !TruthyNum(a) ==> r == b
  {
    if TruthyNum(a) then a else b
  }

  /** `v || d` where `d` is a string literal: the value when truthy, otherwise the default. */
  function StrOrDefault(v: Option<string>, d: string): (r: string)
    ensures TruthyStr(v) ==> r == v.value
    ensures !TruthyStr(v) ==> r == d
  {
    if TruthyStr(v) then v.value else d
  }

  /** `v || d` where `d` is a number literal. */
  function NumOrDefault(v: Option<int>, d: int): (r: int)
    ensures TruthyNum(v) ==> r == v.value
    ensures !TruthyNum(v) ==> r == d
  {
    if TruthyNum(v) then v.value else d
  }
}
