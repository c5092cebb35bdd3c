/** String operations the code relies on: `trim`/`strip`, `toLowerCase`/
    `lower` and the `replace(/\s+/g, '-')` of the avatar id normaliser.
    Letters are lowered in the ASCII range only. */
module Text {

  /** Whose notion of white space: JavaScript's `\s` and `trim()`, or
      Python's `str.isspace` as used by `strip()`. */
  datatype Dialect = Js | Py

  predicate IsSpace(d: Dialect, c: char) {
    || ('\t' <= c <= '\r') || c == ' '
    || c == '\U{A0}' || c == '\U{1680}' || ('\U{2000}' <= c <= '\U{200A}')
    || c == '\U{2028}' || c == '\U{2029}' || c == '\U{202F}'
    || c == '\U{205F}' || c == '\U{3000}'
    || (d == Js && c == '\U{FEFF}')
    || (d == Py && (('\U{1C}' <= c <= '\U{1F}') || c == '\U{85}'))
  }

  predicate IsUpper(c: char) {
    'A' <= c <= 'Z'
  }

  predicate NoSpace(d: Dialect, s: string) {
    forall i | 0 <= i < |s| :: !IsSpace(d, s[i])
  }

  predicate AllSpace(d: Dialect, s: string) {
    forall i | 0 <= i < |s| :: IsSpace(d, s[i])
  }

  predicate NoUpper(s: string) {
    forall i | 0 <= i < |s| :: !IsUpper(s[i])
  }

  lemma {:induction false} AllSpaceSlice(d: Dialect, s: string, lo: nat, hi: nat)
    requires lo <= hi <= |s|
    requires forall k | lo <= k < hi :: IsSpace(d, s[k])
    ensures AllSpace(d, s[lo..hi])
  {
    forall k | 0 <= k < hi - lo
      ensures IsSpace(d, s[lo..hi][k])
    {
      assert s[lo..hi][k] == s[lo + k];
    }
  }

  /** Putting a character that is not white space (nor a capital) in front
      keeps a string free of both. */
  lemma {:induction false} ConsClean(c: char, x: string)
    requires !IsSpace(Js, c) && NoSpace(Js, x)
    ensures NoSpace(Js, [c] + x)
    ensures !IsUpper(c) && NoUpper(x) ==> NoUpper([c] + x)
  {
    forall k | 0 < k <= |x|
      ensures ([c] + x)[k] == x[k - 1]
    {
    }
  }

  lemma {:induction false} NoUpperSuffix(s: string, k: nat)
    requires NoUpper(s) && k <= |s|
    ensures NoUpper(s[k..])
  {
    forall i | 0 <= i < |s| - k
      ensures !IsUpper(s[k..][i])
    {
      assert s[k..][i] == s[k + i];
    }
  }

  /** Neither end of `s` is white space. */
  predicate Trimmed(d: Dialect, s: string) {
    s == [] || (!IsSpace(d, s[0]) && !IsSpace(d, s[|s| - 1]))
  }

  function LowerChar(c: char): (r: char)
    ensures !IsUpper(r)
    ensures forall d :: IsSpace(d, r) <==> IsSpace(d, c)
    ensures !IsUpper(c) ==> r == c
  {
    if IsUpper(c) then (c as int + 32) as char else c
  }

  /** Lower-cases every letter of `s`, keeping its length. */
  function Lower(s: string): (r: string)
    ensures |r| == |s|
    ensures forall i | 0 <= i < |s| :: r[i] == LowerChar(s[i])
  {
    if s == [] then [] else [LowerChar(s[0])] + Lower(s[1..])
  }

  /** Lower-casing twice is lower-casing once; the result has no capitals
      and keeps the white space where it was. */
  lemma LowerIdempotent(s: string)
    ensures NoUpper(Lower(s))
    ensures Lower(Lower(s)) == Lower(s)
    ensures forall d :: Trimmed(d, s) ==> Trimmed(d, Lower(s))
  {
  }

  /** A string without capitals is its own lower-case form. */
  lemma LowerOfLowered(s: string)
    requires NoUpper(s)
    ensures Lower(s) == s
  {
  }

  function TrimStart(d: Dialect, s: string): (r: string)
    ensures |r| <= |s| && r == s[|s| - |r|..]
    ensures r == [] || !IsSpace(d, r[0])
    ensures forall i | 0 <= i < |s| - |r| :: IsSpace(d, s[i])
  {
    if s != [] && IsSpace(d, s[0]) then TrimStart(d, s[1..]) else s
  }

  function TrimEnd(d: Dialect, s: string): (r: string)
    ensures |r| <= |s| && r == s[..|r|]
    ensures r == [] || !IsSpace(d, r[|r| - 1])
    ensures forall i | |r| <= i < |s| :: IsSpace(d, s[i])
  {
    if s != [] && IsSpace(d, s[|s| - 1]) then TrimEnd(d, s[..|s| - 1]) else s
  }

  /** `trim()` / `strip()`: drops the white space at both ends. */
  function Trim(d: Dialect, s: string): (r: string)
    ensures Trimmed(d, r)
  {
    TrimEnd(d, TrimStart(d, s))
  }

  /** What `Trim` keeps is the slice of `s` starting at `i` left when an
      all-white-space prefix and suffix are cut away. */
  lemma {:induction false} TrimSlice(d: Dialect, s: string) returns (i: nat)
    ensures var r := Trim(d, s);
            && i + |r| <= |s| && r == s[i..i + |r|]
            && AllSpace(d, s[..i]) && AllSpace(d, s[i + |r|..])
  {
    var t := TrimStart(d, s);
    var r := TrimEnd(d, t);
    i := |s| - |t|;
    SliceBetween(d, s, t, r, i);
    assert r == Trim(d, s);
  }

  /** A prefix `r` of a suffix `t` of `s`, with everything cut away white
      space, is the slice of `s` between two all-white-space ends. */
  lemma {:induction false} SliceBetween(d: Dialect, s: string, t: string, r: string, i: nat)
    requires |t| <= |s| && t == s[|s| - |t|..] && forall k | 0 <= k < |s| - |t| :: IsSpace(d, s[k])
    requires |r| <= |t| && r == t[..|r|] && forall k | |r| <= k < |t| :: IsSpace(d, t[k])
    requires i == |s| - |t|
    ensures i + |r| <= |s| && r == s[i..i + |r|] && AllSpace(d, s[..i]) && AllSpace(d, s[i + |r|..])
  {
    AllSpaceSlice(d, s, 0, i);
    assert s[0..i] == s[..i];
    forall k | i + |r| <= k < |s|
      ensures IsSpace(d, s[k])
    {
      assert s[k] == t[k - i];
    }
    AllSpaceSlice(d, s, i + |r|, |s|);
    assert s[i + |r|..|s|] == s[i + |r|..];
  }

  /** The slice `Trim` keeps is empty exactly when `s` is all white space. */
  lemma {:induction false} TrimEmpty(d: Dialect, s: string)
    ensures Trim(d, s) == [] <==> AllSpace(d, s)
  {
    var t := TrimStart(d, s);
    var i := |s| - |t|;
    if Trim(d, s) == [] {
      assert t == [];
    } else {
      assert s[i] == t[0];
    }
  }


  /** A string whose ends are not white space is its own trimmed form;
      in particular trimming twice is trimming once. */
  lemma TrimOfTrimmed(d: Dialect, s: string)
    requires Trimmed(d, s)
    ensures Trim(d, s) == s
  {
  }

  lemma TrimIdempotent(d: Dialect, s: string)
    ensures Trim(d, Trim(d, s)) == Trim(d, s)
  {
    TrimOfTrimmed(d, Trim(d, s));
  }

  /** `replace(/\s+/g, '-')`: every maximal run of white space becomes a
      single '-'. */
  function Dasherize(s: string): (r: string)
    decreases |s|
  {
    if s == [] then []
    else if IsSpace(Js, s[0]) then ['-'] + Dasherize(TrimStart(Js, s[1..]))
    else [s[0]] + Dasherize(s[1..])
  }

  /** The result of `Dasherize` contains no white space, and no capitals
      when its input had none. */
  lemma {:induction false} DasherizeClean(s: string)
    ensures NoSpace(Js, Dasherize(s))
    ensures NoUpper(s) ==> NoUpper(Dasherize(s))
    decreases |s|
  {
    if s == [] {
    } else if IsSpace(Js, s[0]) {
      var t := TrimStart(Js, s[1..]);
      if NoUpper(s) {
        assert t == s[|s| - |t|..];
        NoUpperSuffix(s, |s| - |t|);
      }
      DasherizeClean(t);
      ConsClean('-', Dasherize(t));
    } else {
      if NoUpper(s) {
        NoUpperSuffix(s, 1);
      }
      DasherizeClean(s[1..]);
      ConsClean(s[0], Dasherize(s[1..]));
    }
  }

  /** A string without white space is left as it is. */
  lemma {:induction false} DasherizeOfNoSpace(s: string)
    requires NoSpace(Js, s)
    ensures Dasherize(s) == s
    decreases |s|
  {
    if s != [] {
      assert !IsSpace(Js, s[0]);
      DasherizeOfNoSpace(s[1..]);
    }
  }

  /** A run of white space cut from the front leaves the text after it. */
  lemma {:induction false} TrimStartRun(w: string, q: string)
    requires AllSpace(Js, w)
    requires q == [] || !IsSpace(Js, q[0])
    ensures TrimStart(Js, w + q) == q
    decreases |w|
  {
    if w != [] {
      assert (w + q)[1..] == w[1..] + q;
      TrimStartRun(w[1..], q);
    }
  }

  /** A maximal run of white space after a stretch without any becomes one
      '-', and the stretch before it is kept as it is. */
  lemma {:induction false} DasherizeRun(p: string, w: string, q: string)
    requires NoSpace(Js, p) && w != [] && AllSpace(Js, w)
    requires q == [] || !IsSpace(Js, q[0])
    ensures Dasherize(p + w + q) == p + "-" + Dasherize(q)
    decreases |p|
  {
    if p == [] {
      assert p + w + q == w + q;
      assert (w + q)[1..] == w[1..] + q;
      TrimStartRun(w[1..], q);
    } else {
      assert (p + w + q)[0] == p[0];
      assert (p + w + q)[1..] == p[1..] + w + q;
      DasherizeRun(p[1..], w, q);
    }
  }
}
