/** White space and trimming as JavaScript strings define them. */
module Texts {
  import opened Canonical

  predicate IsSpace(u: Unit) {
    9 <= u <= 13 || u in {32, 160, 0x1680, 0x2028, 0x2029, 0x202f, 0x205f, 0x3000, 0xfeff} || 0x2000 <= u <= 0x200a
  }

  /** A string with something besides white space. */
  predicate IsName(t: Text) { exists i :: 0 <= i < |t| && !IsSpace(t[i]) }

  function TrimStart(t: Text): Text { if t != [] && IsSpace(t[0]) then TrimStart(t[1..]) else t }

  function TrimEnd(t: Text): Text { if t != [] && IsSpace(t[|t| - 1]) then TrimEnd(t[..|t| - 1]) else t }

  /** `trim()`. */
  function Trim(t: Text): Text { TrimEnd(TrimStart(t)) }

  lemma {:induction false} TrimStartIsName(t: Text)
    ensures TrimStart(t) == [] <==> !IsName(t)
  {
    if t != [] && IsSpace(t[0]) {
      TrimStartIsName(t[1..]);
      assert IsName(t) ==> IsName(t[1..]) by {
        if i :| 0 <= i < |t| && !IsSpace(t[i]) { assert t[1..][i - 1] == t[i]; }
      }
    }
  }

  lemma {:induction false} TrimEndIsName(t: Text)
    ensures TrimEnd(t) == [] <==> !IsName(t)
  {
    if t != [] && IsSpace(t[|t| - 1]) {
      TrimEndIsName(t[..|t| - 1]);
      assert IsName(t) ==> IsName(t[..|t| - 1]) by {
        if i :| 0 <= i < |t| && !IsSpace(t[i]) { assert t[..|t| - 1][i] == t[i]; }
      }
    }
  }

  /** A name is a string that trimming leaves something of. */
  lemma TrimmedNames(t: Text)
    ensures Trim(t) != [] <==> IsName(t)
  {
    TrimStartIsName(t);
    TrimEndIsName(TrimStart(t));
    StartKeepsName(t);
  }

  lemma {:induction false} StartKeepsName(t: Text)
    ensures IsName(TrimStart(t)) <==> IsName(t)
  {
    if t != [] && IsSpace(t[0]) {
      StartKeepsName(t[1..]);
      assert IsName(t) ==> IsName(t[1..]) by {
        if i :| 0 <= i < |t| && !IsSpace(t[i]) { assert t[1..][i - 1] == t[i]; }
      }
    }
  }
}
