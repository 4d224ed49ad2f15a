/** The JavaScript string built-ins the widget relies on, with their index rules. */
module JsString {

  function Min(a: int, b: int): int
  {
    if a <= b then a else b
  }

  /** A `substring` index clamped into `[0, len]`: negative (and NaN) indices become 0, large ones `len`. */
  function Clamp(i: int, len: nat): (c: nat)
    ensures c <= len
  {
    if i < 0 then 0 else if i > len then len else i
  }

  /** `s.substring(start, end)`: both indices are clamped, then swapped when start exceeds end. */
  function Substring(s: string, start: int, end: int): string
  {
    var a, b := Clamp(start, |s|), Clamp(end, |s|);
    if a <= b then s[a..b] else s[b..a]
  }

  /** `s.substring(start)`: from `start` to the end of the string. */
  function SubstringFrom(s: string, start: int): string
  {
    Substring(s, start, |s|)
  }

  /** `t` occurs in `s` starting at index `i`. */
  predicate OccursAt(s: string, t: string, i: int)
  {
    0 <= i && i + |t| <= |s| && s[i..i + |t|] == t
  }

  /** `s.includes(t)`: a left-to-right search for `t` in `s`. */
  function Includes(s: string, t: string): bool
    decreases |s|
  {
    if t <= s then true
    else if |s| == 0 then false
    else Includes(s[1..], t)
  }

  /** The search finds `t` exactly when `t` occurs somewhere in `s`. */
  lemma {:induction false} IncludesIffOccurs(s: string, t: string)
    ensures Includes(s, t) <==> exists i :: OccursAt(s, t, i)
  {
    if t <= s {
      assert s[0..|t|] == t;
      assert OccursAt(s, t, 0);
    } else if |s| == 0 {
      assert forall i :: !OccursAt(s, t, i);
    } else {
      IncludesIffOccurs(s[1..], t);
      if exists i :: OccursAt(s[1..], t, i) {
        var i :| OccursAt(s[1..], t, i);
        assert s[1..][i..i + |t|] == s[i + 1..i + 1 + |t|];
        assert OccursAt(s, t, i + 1);
      }
      if exists i :: OccursAt(s, t, i) {
        var i :| OccursAt(s, t, i);
        assert i != 0;
        assert s[1..][i - 1..i - 1 + |t|] == s[i..i + |t|];
        assert OccursAt(s[1..], t, i - 1);
      }
    }
  }
}
