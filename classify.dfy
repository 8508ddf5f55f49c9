/**
 * Default classification of a feed (DIET_COMP.py:120-129): substring tests on
 * the upper-cased feedtype and feed name choose the TYPE and METHOD that the
 * form offers as defaults.
 */
module Classify {
  import opened Text

  /** The reference meaning of Python's `t in s` on strings: `t` occurs in `s` at some position. */
  ghost predicate Occurs(t: string, s: string)
  {
    exists i :: OccursAt(t, s, i)
  }

  /** `t` occurs in `s` starting at position `i`. */
  ghost predicate OccursAt(t: string, s: string, i: int)
  {
    0 <= i && i + |t| <= |s| && s[i..i + |t|] == t
  }

  /** Substring test, scanning the start positions of `s` from the left. */
  function Contains(s: string, t: string): (b: bool)
    ensures b <==> Occurs(t, s)
    decreases |s|
  {
    if |t| > |s| then false
    else if s[..|t|] == t then assert OccursAt(t, s, 0); true
    else
      var rest := Contains(s[1..], t);
      assert rest ==> Occurs(t, s) by {
        if rest {
          var i :| OccursAt(t, s[1..], i);
          assert s[i + 1..i + 1 + |t|] == t;
          assert OccursAt(t, s, i + 1);
        }
      }
      assert Occurs(t, s) ==> rest by {
        if Occurs(t, s) {
          var i :| OccursAt(t, s, i);
          assert i != 0;
          assert s[1..][i - 1..i - 1 + |t|] == t;
          assert OccursAt(t, s[1..], i - 1);
        }
      }
      rest
  }

  /** The defaults the form offers for a feed's TYPE and METHOD. */
  datatype Defaults = Defaults(typ: string, analysis: string)

  const ForageDefaults := Defaults("FORAGE", "NIR, starch, NDFD48")
  const PremixDefaults := Defaults("PREMIX", "WC")
  const GrainDefaults := Defaults("GRAIN", "NIR, starch")

  /** The forage test of line 124. */
  ghost predicate LooksLikeForage(feedtype: string, name: string)
  {
    Occurs("FORAGE", Upper(feedtype)) || Occurs("SILAGE", Upper(name)) || Occurs("HAYLAGE", Upper(name))
  }

  /** The premix test of line 126. */
  ghost predicate LooksLikePremix(name: string)
  {
    Occurs("MIX", Upper(name)) || Occurs("BASE", Upper(name))
  }

  /** The if/elif/else chain of DIET_COMP.py:122-129, tests taken in priority order. */
  function DefaultClassification(feedtype: string, name: string): (r: Defaults)
    ensures LooksLikeForage(feedtype, name) ==> r == ForageDefaults
    ensures !LooksLikeForage(feedtype, name) && LooksLikePremix(name) ==> r == PremixDefaults
    ensures !LooksLikeForage(feedtype, name) && !LooksLikePremix(name) ==> r == GrainDefaults
  {
    var ft := Upper(feedtype);
    var fname := Upper(name);
    if Contains(ft, "FORAGE") || Contains(fname, "SILAGE") || Contains(fname, "HAYLAGE") then ForageDefaults
    else if Contains(fname, "MIX") || Contains(fname, "BASE") then PremixDefaults
    else GrainDefaults
  }

  /** The classification ignores letter case in both inputs. */
  lemma ClassificationIgnoresCase(feedtype: string, name: string)
    ensures DefaultClassification(Upper(feedtype), Upper(name)) == DefaultClassification(feedtype, name)
  {
    UpperIdempotent(feedtype);
    UpperIdempotent(name);
  }

  /** A silage whose name also mentions a mix is still a forage: the forage test wins. */
  lemma ForageWinsOverMix()
    ensures DefaultClassification("MIXED", "silage mix") == ForageDefaults
  {
    var fname := Upper("silage mix");
    assert fname[..6] == "SILAGE";
    assert OccursAt("SILAGE", fname, 0);
  }

  /** Only the forage branch offers the TYPE that the derived-field block treats as forage. */
  lemma DefaultTypeIsForageIff(feedtype: string, name: string)
    ensures Upper(DefaultClassification(feedtype, name).typ) == "FORAGE" <==> LooksLikeForage(feedtype, name)
  {
    assert Upper("PREMIX")[0] == 'P';
    assert Upper("GRAIN")[0] == 'G';
    assert Upper("FORAGE") == "FORAGE";
  }
}
