/** Values shared by every part of the model: JavaScript's `null` as an Option,
    a thrown error as a Result, and the few string operations the front end uses. */
module Common {

  /** `None` stands for JavaScript's `null`/`undefined`. */
  datatype Option<+T> = None | Some(value: T)

  /** The outcome of code that may `throw new Error(message)`. */
  datatype Result<+T> = Ok(value: T) | Thrown(message: string)

  /** `String.prototype.includes`: `sub` occurs as a contiguous block of `s`. */
  predicate Includes(s: string, sub: string)
    decreases |s|
  {
    sub <= s || (|s| > 0 && Includes(s[1..], sub))
  }

  /** `sub` sits in `s` starting at index `i`. */
  predicate OccursAt(s: string, sub: string, i: int)
  {
    0 <= i <= |s| - |sub| && s[i..i + |sub|] == sub
  }

  /** `Includes` is exactly "some window of `s` equals `sub`". */
  lemma {:induction false} IncludesAt(s: string, sub: string)
    ensures Includes(s, sub) <==> exists i :: OccursAt(s, sub, i)
    decreases |s|
  {
    if sub <= s {
      assert OccursAt(s, sub, 0);
    } else if |s| > 0 {
      IncludesAt(s[1..], sub);
      if Includes(s[1..], sub) {
        var i :| OccursAt(s[1..], sub, i);
        assert s[i + 1..i + 1 + |sub|] == s[1..][i..i + |sub|];
        assert OccursAt(s, sub, i + 1);
      }
      if exists i :: OccursAt(s, sub, i) {
        var i :| OccursAt(s, sub, i);
        if i > 0 {
          assert s[1..][i - 1..i - 1 + |sub|] == s[i..i + |sub|];
          assert OccursAt(s[1..], sub, i - 1);
        }
      }
    }
  }

  /** `Array.prototype.join(sep)` over strings. */
  function Join(parts: seq<string>, sep: string): (r: string)
    ensures |parts| == 1 ==> r == parts[0]
  {
    if |parts| == 0 then ""
    else if |parts| == 1 then parts[0]
    else parts[0] + sep + Join(parts[1..], sep)
  }

  lemma IncludesSelf(s: string)
    ensures Includes(s, s)
  {
  }

  /** An occurrence inside an occurrence is an occurrence. */
  lemma IncludesTransitive(s: string, mid: string, sub: string)
    requires Includes(s, mid) && Includes(mid, sub)
    ensures Includes(s, sub)
  {
    IncludesAt(s, mid);
    IncludesAt(mid, sub);
    var i :| OccursAt(s, mid, i);
    var j :| OccursAt(mid, sub, j);
    assert forall t :: 0 <= t < |mid| ==> s[i + t] == mid[t];
    assert forall t :: 0 <= t < |sub| ==> mid[j + t] == sub[t];
    assert s[i + j..i + j + |sub|] == sub;
    assert OccursAt(s, sub, i + j);
    IncludesAt(s, sub);
  }

  /** Text around an occurrence does not hide it. */
  lemma IncludesWithin(prefix: string, s: string, suffix: string, sub: string)
    requires Includes(s, sub)
    ensures Includes(prefix + s + suffix, sub)
  {
    IncludesAt(s, sub);
    var i :| OccursAt(s, sub, i);
    var whole := prefix + s + suffix;
    assert whole[|prefix| + i..|prefix| + i + |sub|] == s[i..i + |sub|];
    assert OccursAt(whole, sub, |prefix| + i);
    IncludesAt(whole, sub);
  }

  /** Every part of a join occurs in the joined text. */
  lemma {:induction false} JoinIncludesParts(parts: seq<string>, sep: string, k: int)
    requires 0 <= k < |parts|
    ensures Includes(Join(parts, sep), parts[k])
    decreases |parts|
  {
    IncludesSelf(parts[k]);
    if |parts| > 1 {
      if k == 0 {
        IncludesWithin("", parts[0], sep + Join(parts[1..], sep), parts[0]);
        assert "" + parts[0] + (sep + Join(parts[1..], sep)) == Join(parts, sep);
      } else {
        JoinIncludesParts(parts[1..], sep, k - 1);
        IncludesWithin(parts[0] + sep, Join(parts[1..], sep), "", parts[k]);
        assert parts[0] + sep + Join(parts[1..], sep) + "" == Join(parts, sep);
      }
    }
  }
}
