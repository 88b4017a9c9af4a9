/** String handling the coordinate database relies on: Python's ordering of
    strings (for `sorted`) and the clean-up of shape-record names. */
module Text {

  /** Python's `<` on `str`: lexicographic by code point, a proper prefix first. */
  predicate Less(a: string, b: string)
  {
    if a == [] then b != []
    else if b == [] then false
    else if a[0] == b[0] then Less(a[1..], b[1..])
    else a[0] < b[0]
  }

  /** `a` and `b` agree on their first `k` characters and differ, in `b`'s favour, just after. */
  lemma {:induction false} LessAfterCommonPrefix(a: string, b: string, k: nat)
    requires k <= |a| && k <= |b| && a[..k] == b[..k]
    requires (k == |a| && k < |b|) || (k < |a| && k < |b| && a[k] < b[k])
    ensures Less(a, b)
  {
    if k > 0 {
      assert a[1..][..k - 1] == a[..k][1..];
      assert b[1..][..k - 1] == b[..k][1..];
      LessAfterCommonPrefix(a[1..], b[1..], k - 1);
    }
  }

  lemma {:induction false} LessIrreflexive(a: string)
    ensures !Less(a, a)
  {
    if a != [] {
      LessIrreflexive(a[1..]);
    }
  }

  lemma {:induction false} LessTransitive(a: string, b: string, c: string)
    requires Less(a, b) && Less(b, c)
    ensures Less(a, c)
  {
    if a != [] && b != [] && c != [] && a[0] == b[0] && b[0] == c[0] {
      LessTransitive(a[1..], b[1..], c[1..]);
    }
  }

  /** Every neighbour pair is in strictly increasing order. */
  predicate StrictlySorted(s: seq<string>)
  {
    forall i | 0 <= i < |s| - 1 :: Less(s[i], s[i + 1])
  }

  /** A strictly sorted list is strictly increasing between any two positions,
      so its names are distinct. */
  lemma {:induction false} SortedPairwise(s: seq<string>, i: nat, j: nat)
    requires StrictlySorted(s)
    requires i < j < |s|
    ensures Less(s[i], s[j])
    ensures s[i] != s[j]
    decreases j - i
  {
    if i + 1 < j {
      SortedPairwise(s, i + 1, j);
      LessTransitive(s[i], s[i + 1], s[j]);
    }
    LessIrreflexive(s[i]);
  }

  /** `str.isspace()`: the characters Python's `str.strip()` removes. */
  predicate IsSpace(ch: char)
  {
    || '\t' <= ch <= '\r'
    || '\U{1C}' <= ch <= ' '
    || ch == '\U{85}' || ch == '\U{A0}' || ch == '\U{1680}'
    || '\U{2000}' <= ch <= '\U{200A}'
    || ch == '\U{2028}' || ch == '\U{2029}' || ch == '\U{202F}' || ch == '\U{205F}' || ch == '\U{3000}'
  }

  /** `s.replace("\0", "")`. */
  function RemoveNul(s: string): string
  {
    if s == [] then []
    else (if s[0] == '\0' then [] else [s[0]]) + RemoveNul(s[1..])
  }

  /** `s.lstrip()`: drop the leading whitespace. */
  function LStrip(s: string): string
  {
    if s != [] && IsSpace(s[0]) then LStrip(s[1..]) else s
  }

  /** `s.rstrip()`: drop the trailing whitespace. */
  function RStrip(s: string): string
  {
    if s != [] && IsSpace(s[|s| - 1]) then RStrip(s[..|s| - 1]) else s
  }

  /** `s.replace("\0", "").strip()`, the name the script revision compares. */
  function Clean(s: string): string
  {
    RStrip(LStrip(RemoveNul(s)))
  }

  /** Removing the NULs keeps exactly the other characters and never lengthens. */
  lemma {:induction false} RemoveNulKeeps(s: string)
    ensures |RemoveNul(s)| <= |s|
    ensures forall ch :: ch in RemoveNul(s) <==> ch in s && ch != '\0'
    ensures '\0' !in s ==> RemoveNul(s) == s
  {
    if s != [] {
      RemoveNulKeeps(s[1..]);
      assert s == [s[0]] + s[1..];
    }
  }

  /** `replace` works character by character: a NUL becomes nothing and any
      other character stays as it is... */
  lemma RemoveNulChar(ch: char)
    ensures RemoveNul([ch]) == if ch == '\0' then [] else [ch]
  {
    assert [ch][1..] == [];
  }

  /** ...and the pieces keep their order. */
  lemma {:induction false} RemoveNulAppend(a: string, b: string)
    ensures RemoveNul(a + b) == RemoveNul(a) + RemoveNul(b)
  {
    if a == [] {
      assert a + b == b;
    } else {
      assert (a + b)[0] == a[0];
      assert (a + b)[1..] == a[1..] + b;
      RemoveNulAppend(a[1..], b);
    }
  }

  /** `lstrip` cuts a prefix of whitespace and leaves a non-space in front. */
  lemma {:induction false} LStripCuts(s: string)
    ensures |LStrip(s)| <= |s| && LStrip(s) == s[|s| - |LStrip(s)|..]
    ensures LStrip(s) == [] || !IsSpace(LStrip(s)[0])
    ensures forall k | 0 <= k < |s| - |LStrip(s)| :: IsSpace(s[k])
  {
    if s != [] && IsSpace(s[0]) {
      LStripCuts(s[1..]);
      forall k | 0 <= k < |s| - |LStrip(s)| ensures IsSpace(s[k]) {
        if k > 0 { assert s[k] == s[1..][k - 1]; }
      }
    }
  }

  /** `rstrip` cuts a suffix of whitespace and leaves a non-space at the end. */
  lemma {:induction false} RStripCuts(s: string)
    ensures |RStrip(s)| <= |s| && RStrip(s) == s[..|RStrip(s)|]
    ensures RStrip(s) == [] || !IsSpace(RStrip(s)[|RStrip(s)| - 1])
    ensures forall k | |RStrip(s)| <= k < |s| :: IsSpace(s[k])
  {
    if s != [] && IsSpace(s[|s| - 1]) {
      RStripCuts(s[..|s| - 1]);
      forall k | |RStrip(s)| <= k < |s| ensures IsSpace(s[k]) {
        if k < |s| - 1 { assert s[k] == s[..|s| - 1][k]; }
      }
    }
  }

  /** A cleaned name holds no NUL and starts and ends with a non-space. */
  lemma CleanShape(s: string)
    ensures '\0' !in Clean(s)
    ensures Clean(s) == [] || (!IsSpace(Clean(s)[0]) && !IsSpace(Clean(s)[|Clean(s)| - 1]))
  {
    var t := RemoveNul(s);
    var l := LStrip(t);
    var c := RStrip(l);
    RemoveNulKeeps(s);
    LStripCuts(t);
    RStripCuts(l);
    assert c != [] ==> c[0] == l[0];
    forall ch | ch in c ensures ch != '\0' {
      var m :| 0 <= m < |c| && c[m] == ch;
      assert t[|t| - |l| + m] == ch;
    }
  }

  /** A cleaned name is the NUL-free name with only whitespace cut from either end. */
  lemma CleanTrims(s: string)
    ensures exists i, j | 0 <= i <= j <= |RemoveNul(s)| ::
              && Clean(s) == RemoveNul(s)[i..j]
              && (forall k | 0 <= k < i :: IsSpace(RemoveNul(s)[k]))
              && (forall k | j <= k < |RemoveNul(s)| :: IsSpace(RemoveNul(s)[k]))
  {
    var t := RemoveNul(s);
    var l := LStrip(t);
    var c := RStrip(l);
    LStripCuts(t);
    RStripCuts(l);
    var i := |t| - |l|;
    assert c == t[i..i + |c|] by {
      assert l == t[i..] && c == l[..|c|];
    }
    forall k | i + |c| <= k < |t| ensures IsSpace(t[k]) {
      assert t[k] == l[k - i];
    }
  }

  /** Cleaning a cleaned name changes nothing. */
  lemma CleanIdempotent(s: string)
    ensures Clean(Clean(s)) == Clean(s)
  {
    CleanShape(s);
    var c := Clean(s);
    RemoveNulKeeps(c);
    LStripCuts(c);
    RStripCuts(c);
    assert RemoveNul(c) == c;
    assert LStrip(c) == c;
    assert RStrip(c) == c;
  }
}
