/** The fragment of JavaScript regular expressions the analyzer's rules use: literal
    text, `\s*`, `["']?` and `[^"]+`, matched with the `i` flag and without anchors. */
module Patterns {
  import opened Text

  /** The character classes that occur in the rules. */
  datatype Class =
    | Space      // \s
    | Quote      // ["']
    | NotDQuote  // [^"]

  datatype Token =
    | Lit(text: string)  // literal characters, compared case-insensitively
    | Star(c: Class)     // c*
    | Opt(c: Class)      // c?
    | Plus(c: Class)     // c+

  type Pattern = seq<Token>

  predicate InClass(c: char, k: Class) {
    match k
    case Space => IsSpace(c)
    case Quote => c == '"' || c == '\''
    case NotDQuote => c != '"'
  }

  /** The literal `l` matches at offset `i` under the `i` flag. */
  predicate LitAt(s: string, i: nat, l: string) {
    i + |l| <= |s| && Lower(s[i..i + |l|]) == Lower(l)
  }

  /** Some way of matching `p` starting at offset `i` exists (backtracking semantics:
      each quantified token may stop after any number of characters it accepts). */
  predicate MatchAt(p: Pattern, s: string, i: nat)
    requires i <= |s|
    decreases |s| - i, |p|
  {
    if p == [] then true
    else match p[0]
      case Lit(l) => LitAt(s, i, l) && MatchAt(p[1..], s, i + |l|)
      case Star(k) => MatchAt(p[1..], s, i) || (i < |s| && InClass(s[i], k) && MatchAt(p, s, i + 1))
      case Opt(k) => MatchAt(p[1..], s, i) || (i < |s| && InClass(s[i], k) && MatchAt(p[1..], s, i + 1))
      case Plus(k) => i < |s| && InClass(s[i], k) && MatchAt([Star(k)] + p[1..], s, i + 1)
  }

  /** `regex.test(s)`: the pattern matches from some offset. */
  predicate Test(p: Pattern, s: string) {
    exists i :: 0 <= i <= |s| && MatchAt(p, s, i)
  }

  /** A pattern made of one literal tests exactly like `includes` on lower-cased text. */
  lemma LiteralTest(s: string, t: string)
    ensures Test([Lit(t)], s) <==> Contains(Lower(s), Lower(t))
  {
    forall i | 0 <= i <= |s|
      ensures MatchAt([Lit(t)], s, i) <==> OccursAt(Lower(s), Lower(t), i)
    {
      if i + |t| <= |s| {
        LowerSlice(s, i, i + |t|);
      }
    }
  }

  /** A pattern that starts with a literal matches only text holding that literal. */
  lemma TestNeedsLead(p: Pattern, s: string)
    requires p != [] && p[0].Lit? && Test(p, s)
    ensures Contains(Lower(s), Lower(p[0].text))
  {
    var l := p[0].text;
    var i :| 0 <= i <= |s| && MatchAt(p, s, i);
    LowerSlice(s, i, i + |l|);
    assert OccursAt(Lower(s), Lower(l), i);
  }

  /** A lower-case text lacking character `c` matches no pattern whose leading literal
      holds `c`. */
  lemma LeadBlocked(p: Pattern, s: string, c: char)
    requires c !in s && !IsUpper(c)
    requires forall x :: x in s ==> !IsUpper(x)
    requires p != [] && p[0].Lit? && c in p[0].text
    ensures !Test(p, s)
  {
    var l := p[0].text;
    var k :| 0 <= k < |l| && l[k] == c;
    forall i | 0 <= i <= |s|
      ensures !MatchAt(p, s, i)
    {
      if i + |l| <= |s| {
        assert s[i + k] in s;
        assert Lower(s[i..i + |l|])[k] == LowerChar(s[i + k]) == s[i + k];
        assert Lower(l)[k] == c;
      }
    }
  }
}
