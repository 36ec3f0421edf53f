/**
 * Values as the TypeScript code sees them: optional fields, the truthiness
 * of strings, the `a || b` default operator and `String.prototype.includes`.
 */
module JsValues {

  /** A field or header that may be absent (`null` or `undefined`). */
  datatype Option<+T> = None | Some(value: T)

  /** An optional string is truthy when it is present and not empty. */
  predicate Truthy(o: Option<string>)
  {
    o.Some? && o.value != ""
  }

  /** `a || fallback` for an optional string `a`. */
  function OrElse(a: Option<string>, fallback: string): (r: string)
    ensures Truthy(a) ==> r == a.value
    ensures !Truthy(a) ==> r == fallback
  {
    if Truthy(a) then a.value else fallback
  }

  /** `sub` occurs in `s` at position `i`. */
  predicate OccursAt(s: string, sub: string, i: nat)
    requires i <= |s|
  {
    sub <= s[i..]
  }

  /** Every occurrence in `s[1..]` is an occurrence in `s`, one place later, and back. */
  lemma OccursAtShift(s: string, sub: string, i: nat)
    requires 0 < |s| && i < |s|
    ensures OccursAt(s[1..], sub, i) <==> OccursAt(s, sub, i + 1)
  {
  }

  /** `s.includes(sub)`: true exactly when `sub` occurs somewhere in `s`. */
  function Includes(s: string, sub: string): (r: bool)
    ensures r <==> exists i: nat :: i <= |s| && OccursAt(s, sub, i)
    decreases |s|
  {
    assert s[0..] == s;
    if sub <= s then
      assert OccursAt(s, sub, 0);
      true
    else if |s| == 0 then
      false
    else
      var rest := Includes(s[1..], sub);
      assert rest ==> exists i: nat :: i <= |s| && OccursAt(s, sub, i) by {
        if rest {
          var j: nat :| j <= |s[1..]| && OccursAt(s[1..], sub, j);
          if j < |s[1..]| {
            OccursAtShift(s, sub, j);
          }
          assert OccursAt(s, sub, j + 1);
        }
      }
      assert (exists i: nat :: i <= |s| && OccursAt(s, sub, i)) ==> rest by {
        if exists i: nat :: i <= |s| && OccursAt(s, sub, i) {
          var i: nat :| i <= |s| && OccursAt(s, sub, i);
          assert i != 0;
          if i - 1 < |s[1..]| {
            OccursAtShift(s, sub, i - 1);
          }
          assert OccursAt(s[1..], sub, i - 1);
        }
      }
      rest
  }
}
