/**
 * The feed-name normaliser `norm_text` (DIET_COMP.py:17-22) and the ASCII case
 * conversions that the script's `str.lower` / `str.upper` calls reduce to on
 * ASCII text.  The normaliser is a pipeline of five string rewrites:
 * lower-case, NBSP to space, runs of `_`/`-` to one space, runs of whitespace
 * to one space, strip.
 */
module Text {

  /** The non-breaking space U+00A0. */
  const NBSP: char := '\U{00A0}'

  predicate IsUpper(c: char) { 'A' <= c <= 'Z' }
  predicate IsLower(c: char) { 'a' <= c <= 'z' }
  predicate IsDash(c: char) { c == '_' || c == '-' }

  /**
   * Whitespace as Python's `\s` and `str.strip()` classify it, restricted to
   * ASCII and NBSP: tab, line feed, vertical tab, form feed, carriage return
   * (9-13), the four separators 28-31, space (32), and NBSP.
   */
  predicate IsSpace(c: char) { 9 <= c as int <= 13 || 28 <= c as int <= 32 || c == NBSP }

  function LowerChar(c: char): (d: char)
    ensures !IsUpper(d)
    ensures IsUpper(c) ==> IsLower(d) && d as int == c as int + 32
    ensures !IsUpper(c) ==> d == c
  {
    if IsUpper(c) then (c as int + 32) as char else c
  }

  function UpperChar(c: char): (d: char)
    ensures !IsLower(d)
    ensures IsLower(c) ==> IsUpper(d) && d as int == c as int - 32
    ensures !IsLower(c) ==> d == c
  {
    if IsLower(c) then (c as int - 32) as char else c
  }

  /** `str.lower()` on ASCII letters. */
  function Lower(s: string): (r: string)
    ensures |r| == |s|
  {
    seq(|s|, i requires 0 <= i < |s| => LowerChar(s[i]))
  }

  /** `str.upper()` on ASCII letters. */
  function Upper(s: string): (r: string)
    ensures |r| == |s|
  {
    seq(|s|, i requires 0 <= i < |s| => UpperChar(s[i]))
  }

  /** `s.replace(" ", " ")`. */
  function ReplaceNbsp(s: string): (r: string)
    ensures |r| == |s|
  {
    seq(|s|, i requires 0 <= i < |s| => if s[i] == NBSP then ' ' else s[i])
  }

  /** The longest suffix of `s` that does not start with a character satisfying `p`. */
  function DropRun(s: string, p: char -> bool): (r: string)
    ensures |r| <= |s| && r == s[|s| - |r|..]
    ensures r == [] || !p(r[0])
  {
    if s != [] && p(s[0]) then DropRun(s[1..], p) else s
  }

  /** Replaces every maximal run of characters satisfying `p` by the single character `rep`, as `re.sub(run, rep, s)`. */
  function Squeeze(s: string, p: char -> bool, rep: char): string
    decreases |s|
  {
    if s == [] then []
    else if p(s[0]) then [rep] + Squeeze(DropRun(s[1..], p), p, rep)
    else [s[0]] + Squeeze(s[1..], p, rep)
  }

  /** Drops trailing whitespace. */
  function TrimRight(s: string): (r: string)
    ensures |r| <= |s| && r == s[..|r|]
    ensures r == [] || !IsSpace(r[|r| - 1])
  {
    if s != [] && IsSpace(s[|s| - 1]) then TrimRight(s[..|s| - 1]) else s
  }

  /** `str.strip()`: drops leading and trailing whitespace. */
  function Strip(s: string): string
  {
    TrimRight(DropRun(s, IsSpace))
  }

  /** `norm_text` (DIET_COMP.py:17-22). */
  function NormText(s: string): string
  {
    Strip(Squeeze(Squeeze(ReplaceNbsp(Lower(s)), IsDash, ' '), IsSpace, ' '))
  }

  /** Every character of `s` satisfies `q`. */
  ghost predicate All(s: string, q: char -> bool)
  {
    forall i :: 0 <= i < |s| ==> q(s[i])
  }

  /** No two adjacent characters of `s` are both whitespace. */
  ghost predicate NoDoubleSpace(s: string)
  {
    forall i :: 0 <= i < |s| - 1 ==> !(IsSpace(s[i]) && IsSpace(s[i + 1]))
  }

  /** Neither the first nor the last character of `s` is whitespace. */
  ghost predicate Trimmed(s: string)
  {
    s == [] || (!IsSpace(s[0]) && !IsSpace(s[|s| - 1]))
  }

  /** A character that can appear in normalised text: not upper case, not a dash, and whitespace only as a plain space. */
  predicate NormalChar(c: char)
  {
    !IsUpper(c) && !IsDash(c) && c != NBSP && (IsSpace(c) ==> c == ' ')
  }

  /** The shape of every output of `norm_text`. */
  ghost predicate IsNormal(s: string)
  {
    All(s, NormalChar) && NoDoubleSpace(s) && Trimmed(s)
  }

  lemma {:induction false} SqueezeKeeps(s: string, p: char -> bool, rep: char, q: char -> bool)
    requires All(s, q) && q(rep)
    ensures All(Squeeze(s, p, rep), q)
    decreases |s|
  {
    if s != [] {
      if p(s[0]) {
        var t := DropRun(s[1..], p);
        assert All(t, q) by {
          forall i | 0 <= i < |t| ensures q(t[i]) {
            assert t[i] == s[1..][|s[1..]| - |t| + i];
          }
        }
        SqueezeKeeps(t, p, rep, q);
      } else {
        assert All(s[1..], q) by {
          forall i | 0 <= i < |s| - 1 ensures q(s[1..][i]) { assert s[1..][i] == s[i + 1]; }
        }
        SqueezeKeeps(s[1..], p, rep, q);
      }
    }
  }

  /** The first character of a squeezed string is the first character of the input, or `rep` when that started a run. */
  lemma SqueezeHead(s: string, p: char -> bool, rep: char)
    ensures (Squeeze(s, p, rep) == []) == (s == [])
    ensures s != [] ==> Squeeze(s, p, rep)[0] == (if p(s[0]) then rep else s[0])
  {
  }

  /** After squeezing, every character satisfying `p` is `rep`. */
  lemma {:induction false} SqueezeRep(s: string, p: char -> bool, rep: char)
    ensures forall i :: 0 <= i < |Squeeze(s, p, rep)| && p(Squeeze(s, p, rep)[i]) ==> Squeeze(s, p, rep)[i] == rep
    decreases |s|
  {
    if s != [] {
      var r := Squeeze(s, p, rep);
      var t := if p(s[0]) then DropRun(s[1..], p) else s[1..];
      var head := if p(s[0]) then rep else s[0];
      assert r == [head] + Squeeze(t, p, rep);
      SqueezeRep(t, p, rep);
      var u := Squeeze(t, p, rep);
      forall i | 0 <= i < |r| && p(r[i])
        ensures r[i] == rep
      {
        if i > 0 { assert r[i] == u[i - 1]; }
      }
    }
  }

  /** After squeezing, no two adjacent characters both satisfy `p`. */
  lemma {:induction false} SqueezeNoPair(s: string, p: char -> bool, rep: char)
    ensures forall i :: 0 <= i < |Squeeze(s, p, rep)| - 1 ==> !(p(Squeeze(s, p, rep)[i]) && p(Squeeze(s, p, rep)[i + 1]))
    decreases |s|
  {
    if s != [] {
      var r := Squeeze(s, p, rep);
      var t := if p(s[0]) then DropRun(s[1..], p) else s[1..];
      var head := if p(s[0]) then rep else s[0];
      assert r == [head] + Squeeze(t, p, rep);
      SqueezeNoPair(t, p, rep);
      SqueezeHead(t, p, rep);
      var u := Squeeze(t, p, rep);
      forall i | 0 <= i < |r| - 1
        ensures !(p(r[i]) && p(r[i + 1]))
      {
        if i == 0 {
          assert r[1] == u[0];
          if p(s[0]) { assert t[0] == u[0]; }
        } else {
          assert r[i] == u[i - 1] && r[i + 1] == u[i];
        }
      }
    }
  }

  /** After squeezing, every character satisfying `p` is `rep`, and no two of them are adjacent. */
  lemma SqueezeShape(s: string, p: char -> bool, rep: char)
    ensures forall i :: 0 <= i < |Squeeze(s, p, rep)| && p(Squeeze(s, p, rep)[i]) ==> Squeeze(s, p, rep)[i] == rep
    ensures forall i :: 0 <= i < |Squeeze(s, p, rep)| - 1 ==> !(p(Squeeze(s, p, rep)[i]) && p(Squeeze(s, p, rep)[i + 1]))
  {
    SqueezeRep(s, p, rep);
    SqueezeNoPair(s, p, rep);
  }

  /** The tail of a string in squeezed shape is in squeezed shape. */
  lemma SqueezedTail(s: string, p: char -> bool, rep: char)
    requires s != []
    requires forall i :: 0 <= i < |s| && p(s[i]) ==> s[i] == rep
    requires forall i :: 0 <= i < |s| - 1 ==> !(p(s[i]) && p(s[i + 1]))
    ensures forall i :: 0 <= i < |s[1..]| && p(s[1..][i]) ==> s[1..][i] == rep
    ensures forall i :: 0 <= i < |s[1..]| - 1 ==> !(p(s[1..][i]) && p(s[1..][i + 1]))
  {
    var t := s[1..];
    forall i | 0 <= i < |t| && p(t[i]) ensures t[i] == rep {
      assert t[i] == s[i + 1];
    }
    forall i | 0 <= i < |t| - 1 ensures !(p(t[i]) && p(t[i + 1])) {
      assert t[i] == s[i + 1] && t[i + 1] == s[i + 2];
    }
  }

  /** A string that already has the squeezed shape is left unchanged. */
  lemma {:induction false} SqueezeFixed(s: string, p: char -> bool, rep: char)
    requires forall i :: 0 <= i < |s| && p(s[i]) ==> s[i] == rep
    requires forall i :: 0 <= i < |s| - 1 ==> !(p(s[i]) && p(s[i + 1]))
    ensures Squeeze(s, p, rep) == s
    decreases |s|
  {
    if s != [] {
      var t := s[1..];
      SqueezedTail(s, p, rep);
      SqueezeFixed(t, p, rep);
      if p(s[0]) {
        if t != [] {
          assert t[0] == s[1] && !p(t[0]);
        }
        assert DropRun(t, p) == t;
        assert s == [rep] + t;
      } else {
        assert s == [s[0]] + t;
      }
    }
  }

  /** `Strip` returns a contiguous slice of its input that has no whitespace at either end. */
  lemma StripSlice(s: string)
    ensures var a := |s| - |DropRun(s, IsSpace)|;
      a + |Strip(s)| <= |s| && Strip(s) == s[a..a + |Strip(s)|]
    ensures Trimmed(Strip(s))
  {
    StripIsSlice(s);
    StripTrimmed(s);
  }

  lemma StripIsSlice(s: string)
    ensures var a := |s| - |DropRun(s, IsSpace)|;
      a + |Strip(s)| <= |s| && Strip(s) == s[a..a + |Strip(s)|]
  {
    var d := DropRun(s, IsSpace);
    assert Strip(s) == TrimRight(d);
    SliceOfSuffix(s, |s| - |d|, d, Strip(s));
  }

  lemma StripTrimmed(s: string)
    ensures Trimmed(Strip(s))
  {
    var d := DropRun(s, IsSpace);
    var r := TrimRight(d);
    if r != [] {
      assert r[0] == d[0];
    }
  }

  lemma SliceOfSuffix(s: string, a: int, d: string, r: string)
    requires 0 <= a <= |s| && d == s[a..] && |r| <= |d| && r == d[..|r|]
    ensures a + |r| <= |s| && r == s[a..a + |r|]
  {
  }

  /** A string with no whitespace at either end is its own strip. */
  lemma StripFixed(s: string)
    requires Trimmed(s)
    ensures Strip(s) == s
  {
    assert DropRun(s, IsSpace) == s;
  }

  /** Squeezing never lengthens a string. */
  lemma {:induction false} SqueezeShorter(s: string, p: char -> bool, rep: char)
    ensures |Squeeze(s, p, rep)| <= |s|
    decreases |s|
  {
    if s != [] {
      if p(s[0]) {
        SqueezeShorter(DropRun(s[1..], p), p, rep);
      } else {
        SqueezeShorter(s[1..], p, rep);
      }
    }
  }

  /** `norm_text` never lengthens a name. */
  lemma NormTextShorter(s: string)
    ensures |NormText(s)| <= |s|
  {
    var l := ReplaceNbsp(Lower(s));
    SqueezeShorter(l, IsDash, ' ');
    SqueezeShorter(Squeeze(l, IsDash, ' '), IsSpace, ' ');
  }

  /** Every output of `norm_text` is lower case, dash-free, NBSP-free, single-spaced and trimmed. */
  lemma NormTextIsNormal(s: string)
    ensures IsNormal(NormText(s))
  {
    var s4 := Squeeze(Squeeze(ReplaceNbsp(Lower(s)), IsDash, ' '), IsSpace, ' ');
    SqueezedNormal(s);
    StripKeepsNormal(s4);
  }

  /** Before the final strip, the text has only normal characters and no two adjacent spaces. */
  lemma SqueezedNormal(s: string)
    ensures var s4 := Squeeze(Squeeze(ReplaceNbsp(Lower(s)), IsDash, ' '), IsSpace, ' ');
      All(s4, NormalChar) && NoDoubleSpace(s4)
  {
    var s1 := Lower(s);
    var s2 := ReplaceNbsp(s1);
    assert All(s2, (c: char) => !IsUpper(c) && c != NBSP);
    var s3 := Squeeze(s2, IsDash, ' ');
    SqueezeKeeps(s2, IsDash, ' ', (c: char) => !IsUpper(c) && c != NBSP);
    SqueezeShape(s2, IsDash, ' ');
    assert All(s3, (c: char) => !IsUpper(c) && !IsDash(c) && c != NBSP);
    var s4 := Squeeze(s3, IsSpace, ' ');
    SqueezeKeeps(s3, IsSpace, ' ', (c: char) => !IsUpper(c) && !IsDash(c) && c != NBSP);
    SqueezeShape(s3, IsSpace, ' ');
  }

  /** Stripping a string of normal characters without double spaces leaves it in normal form. */
  lemma StripKeepsNormal(u: string)
    requires All(u, NormalChar) && NoDoubleSpace(u)
    ensures IsNormal(Strip(u))
  {
    var r := Strip(u);
    StripSlice(u);
    var a := |u| - |DropRun(u, IsSpace)|;
    assert forall i :: 0 <= i < |r| ==> r[i] == u[a + i];
  }

  /** A string in normal form is a fixed point of `norm_text`. */
  lemma NormalIsFixed(s: string)
    requires IsNormal(s)
    ensures NormText(s) == s
  {
    assert Lower(s) == s;
    assert ReplaceNbsp(s) == s;
    SqueezeFixed(s, IsDash, ' ');
    SqueezeFixed(s, IsSpace, ' ');
    StripFixed(s);
  }

  /** `norm_text` is idempotent. */
  lemma NormTextIdempotent(s: string)
    ensures NormText(NormText(s)) == NormText(s)
  {
    NormTextIsNormal(s);
    NormalIsFixed(NormText(s));
  }

  /** Casefolding an already upper-cased string changes nothing. */
  lemma UpperIdempotent(s: string)
    ensures Upper(Upper(s)) == Upper(s)
  {
  }

  /** Normal form and idempotence for every name of a list at once. */
  lemma NormTextAllNormal(names: seq<string>)
    ensures forall k :: 0 <= k < |names| ==> IsNormal(NormText(names[k])) && NormText(NormText(names[k])) == NormText(names[k])
  {
    forall k | 0 <= k < |names|
      ensures IsNormal(NormText(names[k])) && NormText(NormText(names[k])) == NormText(names[k])
    {
      NormTextIsNormal(names[k]);
      NormTextIdempotent(names[k]);
    }
  }

  /** The "Feed Name (Clean)" column of the reference library (DIET_COMP.py:30): the normalised original names, in order. */
  function CleanColumn(names: seq<string>): (r: seq<string>)
    ensures |r| == |names|
    ensures forall k :: 0 <= k < |r| ==> IsNormal(r[k]) && NormText(r[k]) == r[k]
  {
    NormTextAllNormal(names);
    seq(|names|, k requires 0 <= k < |names| => NormText(names[k]))
  }
}
