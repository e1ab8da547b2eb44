/**
 * The fragment of Python's `re` that the keyword lists use: literal
 * characters, a character class (`[ий]`), `.*` and `\s*`, searched for
 * anywhere in the text (`re.search`). Matching follows the backtracking
 * semantics: a pattern matches at a position if some way of sizing its
 * `.*` and `\s*` runs matches.
 */
module Patterns {
  import opened Text

  datatype Atom =
    | Char(c: char)        // a literal character
    | OneOf(chars: string) // a character class such as [ий]
    | AnyRun               // .*  (any characters but a newline)
    | SpaceRun             // \s*

  type Pattern = seq<Atom>

  /** A pattern made of literal characters only. */
  function Lit(s: string): Pattern {
    seq(|s|, i requires 0 <= i < |s| => Char(s[i]))
  }

  /** Does pattern p match the text t starting at position i? */
  predicate MatchAt(p: Pattern, t: string, i: nat)
    requires i <= |t|
    decreases |p|, |t| - i
  {
    if p == [] then true
    else match p[0]
      case Char(c) => i < |t| && t[i] == c && MatchAt(p[1..], t, i + 1)
      case OneOf(cs) => i < |t| && t[i] in cs && MatchAt(p[1..], t, i + 1)
      case AnyRun => MatchAt(p[1..], t, i) || (i < |t| && t[i] != '\n' && MatchAt(p, t, i + 1))
      case SpaceRun => MatchAt(p[1..], t, i) || (i < |t| && IsSpace(t[i]) && MatchAt(p, t, i + 1))
  }

  predicate SearchFrom(p: Pattern, t: string, i: nat)
    requires i <= |t|
    decreases |t| - i
  {
    MatchAt(p, t, i) || (i < |t| && SearchFrom(p, t, i + 1))
  }

  /** `re.search(p, t)` succeeds. */
  predicate Search(p: Pattern, t: string) {
    SearchFrom(p, t, 0)
  }

  /** `_matches_keywords`: true as soon as one keyword of the list is found in t. */
  predicate MatchesAny(keywords: seq<Pattern>, t: string)
    ensures MatchesAny(keywords, t) <==> exists k :: 0 <= k < |keywords| && Search(keywords[k], t)
  {
    |keywords| > 0 && (Search(keywords[0], t) || MatchesAny(keywords[1..], t))
  }

  lemma {:induction false} LitMatchesAt(w: string, t: string, i: nat)
    requires i + |w| <= |t| && t[i..i + |w|] == w
    ensures MatchAt(Lit(w), t, i)
    decreases |w|
  {
    if |w| > 0 {
      assert Lit(w)[1..] == Lit(w[1..]);
      assert t[i + 1..i + 1 + |w[1..]|] == w[1..];
      LitMatchesAt(w[1..], t, i + 1);
    }
  }

  lemma {:induction false} SearchFromReaches(p: Pattern, t: string, i: nat, j: nat)
    requires i <= j <= |t| && MatchAt(p, t, j)
    ensures SearchFrom(p, t, i)
    decreases j - i
  {
    if i < j {
      SearchFromReaches(p, t, i + 1, j);
    }
  }

  /** A literal keyword is found exactly where `keyword in t` holds. */
  lemma {:induction false} ContainsFindsLit(w: string, t: string)
    requires Contains(t, w)
    ensures Search(Lit(w), t)
    decreases |t|
  {
    if w <= t {
      LitMatchesAt(w, t, 0);
    } else {
      ContainsFindsLit(w, t[1..]);
      ShiftSearch(Lit(w), t);
    }
  }

  lemma {:induction false} ShiftMatch(p: Pattern, t: string, i: nat)
    requires 1 <= |t| && i <= |t| - 1 && MatchAt(p, t[1..], i)
    ensures MatchAt(p, t, i + 1)
    decreases |p|, |t| - i
  {
    if p != [] {
      match p[0]
      case Char(c) => ShiftMatch(p[1..], t, i + 1);
      case OneOf(cs) => ShiftMatch(p[1..], t, i + 1);
      case AnyRun =>
        if MatchAt(p[1..], t[1..], i) { ShiftMatch(p[1..], t, i); } else { ShiftMatch(p, t, i + 1); }
      case SpaceRun =>
        if MatchAt(p[1..], t[1..], i) { ShiftMatch(p[1..], t, i); } else { ShiftMatch(p, t, i + 1); }
    }
  }

  lemma {:induction false} ShiftSearchFrom(p: Pattern, t: string, i: nat)
    requires 1 <= |t| && i <= |t| - 1 && SearchFrom(p, t[1..], i)
    ensures SearchFrom(p, t, i + 1)
    decreases |t| - i
  {
    if MatchAt(p, t[1..], i) {
      ShiftMatch(p, t, i);
    } else {
      ShiftSearchFrom(p, t, i + 1);
    }
  }

  lemma ShiftSearch(p: Pattern, t: string)
    requires 1 <= |t| && Search(p, t[1..])
    ensures Search(p, t)
  {
    ShiftSearchFrom(p, t, 0);
  }

  /** A search for a pattern that opens with a literal character finds that character. */
  lemma {:induction false} SearchFromNeedsFirstChar(p: Pattern, t: string, i: nat)
    requires i <= |t| && |p| > 0 && p[0].Char? && SearchFrom(p, t, i)
    ensures exists j :: i <= j < |t| && t[j] == p[0].c
    decreases |t| - i
  {
    if !MatchAt(p, t, i) {
      SearchFromNeedsFirstChar(p, t, i + 1);
    }
  }

  /** A pattern that opens with a character the text lacks is not found. */
  lemma AbsentFirstChar(p: Pattern, t: string)
    requires |p| > 0 && p[0].Char?
    requires forall j :: 0 <= j < |t| ==> t[j] != p[0].c
    ensures !Search(p, t)
  {
    if Search(p, t) {
      SearchFromNeedsFirstChar(p, t, 0);
    }
  }
}
