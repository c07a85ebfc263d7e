/** The few JavaScript value semantics the widget relies on: absent values,
    truthiness of optional strings, the `||` operator, settled promises and
    `Array.prototype.slice`. */
module JsCore {

  /** A value that may be `null` or `undefined` (None) or present (Some). */
  datatype Option<+T> = None | Some(value: T)

  /** The way an awaited promise settles: with a value, or rejected with an
      error whose `message` is kept. */
  datatype Outcome<+T> = Resolved(value: T) | Rejected(message: string)

  function Min(a: int, b: int): int { if a <= b then a else b }

  function Max(a: int, b: int): int { if a >= b then a else b }

  /** An optional string is truthy when it is present and not empty;
      `null`, `undefined` and `""` are all falsy. */
  predicate Truthy(o: Option<string>)
  {
    o.Some? && o.value != ""
  }

  /** `a || b`: the left operand when it is truthy, else the right one
      (which may itself be falsy). */
  function OrElse(a: Option<string>, b: Option<string>): (r: Option<string>)
    ensures Truthy(r) <==> Truthy(a) || Truthy(b)
    ensures Truthy(a) ==> r == a
  {
    if Truthy(a) then a else b
  }

  predicate IsDigit(c: char)
  {
    '0' <= c <= '9'
  }

  /** `s.slice(start, end)` on an array: negative bounds count from the end,
      both bounds are clipped to the array, and a crossed range is empty. */
  function JsSlice<T>(s: seq<T>, start: int, end: int): (r: seq<T>)
    ensures |r| <= |s|
    ensures 0 <= start <= end ==> r == s[Min(start, |s|)..Min(end, |s|)]
    ensures 0 <= start <= end ==> |r| <= end - start
    ensures 0 <= start && |s| <= start ==> r == []
    ensures forall i :: 0 <= i < |r| ==> r[i] in s
  {
    var from := if start < 0 then Max(|s| + start, 0) else Min(start, |s|);
    var to := if end < 0 then Max(|s| + end, 0) else Min(end, |s|);
    if from < to then s[from..to] else []
  }
}
