/**
 The JavaScript string and value idioms the components rely on: optional
 values, `toLowerCase`, `String.prototype.includes`, `Array.prototype.join`,
 and the `||` operator used to substitute a default for a falsy value.
 */
module Text {

  datatype Option<+T> = None | Some(value: T)

  /** Lower-cases one character: the ASCII capitals A-Z, every other character unchanged. */
  function LowerChar(c: char): (r: char)
    ensures ('A' <= c <= 'Z') == (r != c)
    ensures !('A' <= r <= 'Z')
  {
    if 'A' <= c <= 'Z' then (c as int - 'A' as int + 'a' as int) as char else c
  }

  /** String.prototype.toLowerCase, restricted to the character mapping of LowerChar. */
  function Lower(s: string): (r: string)
    ensures |r| == |s|
    ensures forall i :: 0 <= i < |s| ==> r[i] == LowerChar(s[i])
  {
    if s == [] then [] else [LowerChar(s[0])] + Lower(s[1..])
  }

  /** String.prototype.includes: `sub` occurs in `s` as a contiguous block. A prefix is
      included, and nothing longer than `s` is. */
  predicate Includes(s: string, sub: string)
    ensures sub <= s ==> Includes(s, sub)
    ensures Includes(s, sub) ==> |sub| <= |s|
  {
    sub <= s || (s != [] && Includes(s[1..], sub))
  }

  /** The reference definition of an occurrence: `sub` starts at position `i` of `s`. */
  predicate OccursAt(s: string, sub: string, i: nat)
  {
    i + |sub| <= |s| && s[i..i + |sub|] == sub
  }

  /** Slicing the tail of a string is slicing the string one position further on. */
  lemma SliceOfTail(s: string, a: nat, b: nat)
    requires s != [] && a <= b <= |s| - 1
    ensures s[1..][a..b] == s[a + 1..b + 1]
  {
  }

  /** An occurrence at any position makes Includes hold. */
  lemma {:induction false} OccursImpliesIncludes(s: string, sub: string, i: nat)
    requires OccursAt(s, sub, i)
    ensures Includes(s, sub)
    decreases i
  {
    if i == 0 {
      assert s[..|sub|] == sub;
    } else {
      SliceOfTail(s, i - 1, i - 1 + |sub|);
      OccursImpliesIncludes(s[1..], sub, i - 1);
    }
  }

  /** When Includes holds there is a position at which `sub` occurs. */
  lemma {:induction false} IncludesImpliesOccurs(s: string, sub: string)
    requires Includes(s, sub)
    ensures exists i: nat :: OccursAt(s, sub, i)
  {
    if sub <= s {
      assert s[0..|sub|] == sub;
      assert OccursAt(s, sub, 0);
    } else {
      IncludesImpliesOccurs(s[1..], sub);
      var i: nat :| OccursAt(s[1..], sub, i);
      SliceOfTail(s, i, i + |sub|);
      assert OccursAt(s, sub, i + 1);
    }
  }

  /** Includes holds exactly when `sub` occurs at some position of `s`. */
  lemma IncludesIffOccurs(s: string, sub: string)
    ensures Includes(s, sub) <==> exists i: nat :: OccursAt(s, sub, i)
  {
    forall i: nat | OccursAt(s, sub, i) ensures Includes(s, sub) {
      OccursImpliesIncludes(s, sub, i);
    }
    if Includes(s, sub) {
      IncludesImpliesOccurs(s, sub);
    }
  }

  /** The empty search term occurs in every string. */
  lemma IncludesEmpty(s: string)
    ensures Includes(s, "")
  {
  }

  /** Array.prototype.join: the parts in order with `sep` between neighbours. No parts give
      '', one part itself; otherwise the text starts with the first part, then `sep`. */
  function Join(parts: seq<string>, sep: string): (r: string)
    ensures parts == [] ==> r == ""
    ensures |parts| == 1 ==> r == parts[0]
    ensures |parts| >= 2 ==> parts[0] + sep <= r
  {
    if |parts| == 0 then ""
    else if |parts| == 1 then parts[0]
    else parts[0] + sep + Join(parts[1..], sep)
  }

  /** Joining two non-empty lists is joining each and putting one separator between. */
  lemma {:induction false} JoinAppend(a: seq<string>, b: seq<string>, sep: string)
    requires a != [] && b != []
    ensures Join(a + b, sep) == Join(a, sep) + sep + Join(b, sep)
  {
    if |a| == 1 {
      assert (a + b)[1..] == b;
    } else {
      assert (a + b)[1..] == a[1..] + b;
      JoinAppend(a[1..], b, sep);
    }
  }

  /** `v || ''` on an optional string: the value when present, the empty string otherwise. */
  function OrEmpty(v: Option<string>): (r: string)
    ensures v.Some? ==> r == v.value
    ensures v.None? ==> r == ""
  {
    if v.Some? then v.value else ""
  }

  /** `v || null` on a form string: the empty string, being falsy, becomes null. */
  function NullIfEmpty(v: string): (r: Option<string>)
    ensures r.None? <==> v == ""
    ensures r.Some? ==> r.value == v
  {
    if v == "" then None else Some(v)
  }

  /** JavaScript truthiness of an optional string: present and not empty. */
  predicate Truthy(v: Option<string>)
  {
    v.Some? && v.value != ""
  }

  /** Storing a loaded optional field reproduces it, except that a present empty string becomes null. */
  lemma NullIfEmptyOrEmpty(v: Option<string>)
    ensures NullIfEmpty(OrEmpty(v)) == if Truthy(v) then v else None
  {
  }
}
