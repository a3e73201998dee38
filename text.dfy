/**
 * The two string operations the front end relies on: `toLowerCase` (for
 * case-insensitive attribute names and status labels) and `includes`.
 * Lower-casing is modelled on the ASCII letters only; every label the
 * program compares is ASCII.
 */
module Text {

  predicate IsUpper(c: char)
  {
    'A' <= c <= 'Z'
  }

  /** The lower-case form of one character: A-Z map to a-z, everything else is kept. */
  function LowerChar(c: char): (r: char)
    ensures IsUpper(c) ==> r as int == c as int + 32
    ensures !IsUpper(c) ==> r == c
    ensures !IsUpper(r)
  {
    if IsUpper(c) then (c as int + 32) as char else c
  }

  /** `String.prototype.toLowerCase` on ASCII text. */
  function ToLower(s: string): (r: string)
    // These two clauses unfold the body element by element; the properties
    // are the lemmas below.
    ensures |r| == |s|
    ensures forall i :: 0 <= i < |s| ==> r[i] == LowerChar(s[i])
  {
    seq(|s|, i requires 0 <= i < |s| => LowerChar(s[i]))
  }

  /** Lower-casing twice is lower-casing once. */
  lemma ToLowerIdempotent(s: string)
    ensures ToLower(ToLower(s)) == ToLower(s)
  {
    var t := ToLower(s);
    assert forall i :: 0 <= i < |t| ==> LowerChar(t[i]) == t[i];
  }

  /** Changing the case of any letters of a string does not change its lower-case form. */
  lemma ToLowerIgnoresCase(s: string, t: string)
    requires |s| == |t|
    requires forall i :: 0 <= i < |s| ==> LowerChar(s[i]) == LowerChar(t[i])
    ensures ToLower(s) == ToLower(t)
  {
  }

  /** `s.includes(sub)`: `sub` occurs in `s` starting at some position. */
  function Contains(s: string, sub: string): (b: bool)
    decreases |s|
  {
    if sub <= s then true
    else if s == [] then false
    else Contains(s[1..], sub)
  }

  /** `sub` occurs in `s` starting at index `i`. */
  predicate OccursAt(s: string, sub: string, i: int)
  {
    0 <= i <= |s| - |sub| && s[i..i + |sub|] == sub
  }

  /** `Contains` holds exactly when `sub` occurs at some index of `s`. */
  lemma ContainsSpec(s: string, sub: string)
    ensures Contains(s, sub) <==> exists i :: OccursAt(s, sub, i)
  {
    if Contains(s, sub) {
      ContainsFound(s, sub);
    }
    if exists i :: OccursAt(s, sub, i) {
      var i :| OccursAt(s, sub, i);
      ContainsAt(s, sub, i);
    }
  }

  /** Where `Contains` holds, `sub` occurs at some index. */
  lemma {:induction false} ContainsFound(s: string, sub: string)
    requires Contains(s, sub)
    ensures exists i :: OccursAt(s, sub, i)
    decreases |s|
  {
    if sub <= s {
      assert OccursAt(s, sub, 0);
    } else {
      ContainsFound(s[1..], sub);
      var i :| OccursAt(s[1..], sub, i);
      assert OccursAt(s, sub, i + 1);
    }
  }

  /** A string contains every string that occurs in it. */
  lemma {:induction false} ContainsAt(s: string, sub: string, i: int)
    requires OccursAt(s, sub, i)
    ensures Contains(s, sub)
    decreases |s|
  {
    if !(sub <= s) {
      assert i != 0;
      assert OccursAt(s[1..], sub, i - 1);
      ContainsAt(s[1..], sub, i - 1);
    }
  }

  /** A string does not contain `sub` when no position from which `sub`
      would fit holds the first character of `sub`. */
  lemma NotContainsFirstChar(s: string, sub: string)
    requires |sub| > 0
    requires forall i :: 0 <= i <= |s| - |sub| ==> s[i] != sub[0]
    ensures !Contains(s, sub)
  {
    ContainsSpec(s, sub);
    forall i | 0 <= i <= |s| - |sub| ensures !OccursAt(s, sub, i) {
      assert s[i..i + |sub|][0] == s[i];
    }
  }

  /** No string contains a longer one. */
  lemma NotContainsLonger(s: string, sub: string)
    requires |sub| > |s|
    ensures !Contains(s, sub)
  {
    ContainsSpec(s, sub);
  }
}
