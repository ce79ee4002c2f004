/** String operations with the JavaScript semantics the analyzer and the reply salvager
    rely on: the `\s` / `trim` white-space set, ASCII `toLowerCase`, `includes`,
    `split`, `join`, and the list-marker strip `replace(/^[-•\d.\s]+/, '')`. */
module Text {

  datatype Option<T> = None | Some(value: T)

  /** JavaScript white space: the characters matched by `\s` and removed by `trim`
      (WhiteSpace and LineTerminator of ECMA-262). */
  predicate IsSpace(c: char) {
    || c == ' ' || c == '\t' || c == '\n' || c == '\U{B}' || c == '\U{C}' || c == '\r'
    || c == '\U{A0}' || c == '\U{1680}' || ('\U{2000}' <= c <= '\U{200A}')
    || c == '\U{2028}' || c == '\U{2029}' || c == '\U{202F}' || c == '\U{205F}'
    || c == '\U{3000}' || c == '\U{FEFF}'
  }

  predicate IsDigit(c: char) { '0' <= c <= '9' }

  predicate IsUpper(c: char) { 'A' <= c <= 'Z' }

  function LowerChar(c: char): char {
    if IsUpper(c) then (c as int + 32) as char else c
  }

  /** `toLowerCase`, restricted to ASCII letters. */
  function Lower(s: string): (r: string)
    ensures |r| == |s|
    ensures forall i :: 0 <= i < |s| ==> r[i] == LowerChar(s[i])
  {
    seq(|s|, i requires 0 <= i < |s| => LowerChar(s[i]))
  }

  /** `t` occurs in `s` starting at offset `i`. */
  predicate OccursAt(s: string, t: string, i: nat) {
    i + |t| <= |s| && s[i..i + |t|] == t
  }

  /** `s.includes(t)`: `t` occurs in `s` at some offset. */
  predicate Contains(s: string, t: string) {
    exists i :: 0 <= i <= |s| && OccursAt(s, t, i)
  }

  predicate StartsWith(s: string, prefix: string) {
    |prefix| <= |s| && s[..|prefix|] == prefix
  }

  /** `parts.join(sep)`; the empty array joins to the empty string. */
  function Join(parts: seq<string>, sep: string): string {
    if parts == [] then ""
    else if |parts| == 1 then parts[0]
    else parts[0] + sep + Join(parts[1..], sep)
  }

  /** `s.split(sep)` for a one-character separator: never empty, and no part holds `sep`. */
  function Split(s: string, sep: char): (parts: seq<string>)
    ensures |parts| >= 1
    ensures forall k :: 0 <= k < |parts| ==> sep !in parts[k]
  {
    if s == [] then [""]
    else
      var rest := Split(s[1..], sep);
      if s[0] == sep then [""] + rest
      else [[s[0]] + rest[0]] + rest[1..]
  }

  /** Splitting and joining back with the same separator restores the text. */
  lemma {:induction false} SplitJoin(s: string, sep: char)
    ensures Join(Split(s, sep), [sep]) == s
  {
    if s != [] {
      var rest := Split(s[1..], sep);
      SplitJoin(s[1..], sep);
      if s[0] == sep {
        assert Split(s, sep)[1..] == rest;
      } else {
        if |rest| == 1 {
          assert Split(s, sep) == [[s[0]] + rest[0]];
        } else {
          assert Split(s, sep)[1..] == rest[1..];
          assert Join(rest, [sep]) == rest[0] + [sep] + Join(rest[1..], [sep]);
        }
      }
    }
  }

  /** Every part of a join occurs in the joined text. */
  lemma {:induction false} JoinContainsParts(parts: seq<string>, sep: string, k: nat)
    requires k < |parts|
    ensures Contains(Join(parts, sep), parts[k])
  {
    var j := Join(parts, sep);
    if |parts| == 1 || k == 0 {
      assert OccursAt(j, parts[k], 0);
    } else {
      JoinContainsParts(parts[1..], sep, k - 1);
      var tail := Join(parts[1..], sep);
      var i :| 0 <= i <= |tail| && OccursAt(tail, parts[k], i);
      var off := |parts[0]| + |sep|;
      assert j == parts[0] + sep + tail;
      assert j[off + i..off + i + |parts[k]|] == tail[i..i + |parts[k]|];
      assert OccursAt(j, parts[k], off + i);
    }
  }

  /** `includes` is transitive: a word inside a part is inside the whole. */
  lemma ContainsTrans(s: string, t: string, w: string)
    requires Contains(s, t) && Contains(t, w)
    ensures Contains(s, w)
  {
    var i :| 0 <= i <= |s| && OccursAt(s, t, i);
    var j :| 0 <= j <= |t| && OccursAt(t, w, j);
    forall k | 0 <= k < |w|
      ensures s[i + j + k] == w[k]
    {
      assert w[k] == t[j + k] == s[i..i + |t|][j + k];
    }
    assert s[i + j..i + j + |w|] == w;
    assert OccursAt(s, w, i + j);
  }

  /** A word found in one line of `s.split(sep)` is found in `s`. */
  lemma LineWordInText(s: string, sep: char, k: nat, w: string)
    requires k < |Split(s, sep)| && Contains(Split(s, sep)[k], w)
    ensures Contains(s, w)
  {
    SplitJoin(s, sep);
    JoinContainsParts(Split(s, sep), [sep], k);
    ContainsTrans(s, Split(s, sep)[k], w);
  }

  /** A text that lacks some character of `t` cannot contain `t`. */
  lemma MissingCharExcludes(s: string, t: string, c: char)
    requires c in t && c !in s
    ensures !Contains(s, t)
  {
    var k :| 0 <= k < |t| && t[k] == c;
    forall i | 0 <= i <= |s| && i + |t| <= |s|
      ensures !OccursAt(s, t, i)
    {
      assert s[i + k] in s;
      assert s[i..i + |t|][k] != t[k];
    }
  }

  /** No word holding a character the text lacks is found in it. */
  lemma MissingCharExcludesAll(s: string, c: char)
    requires c !in s
    ensures forall t :: c in t ==> !Contains(s, t)
  {
    forall t | c in t
      ensures !Contains(s, t)
    {
      MissingCharExcludes(s, t, c);
    }
  }

  /** A lower-cased text never contains a word with an upper-case ASCII letter. */
  lemma LowerExcludesUpper(s: string, t: string, k: nat)
    requires k < |t| && IsUpper(t[k])
    ensures !Contains(Lower(s), t)
  {
    forall i | 0 <= i <= |s| && i + |t| <= |s|
      ensures !OccursAt(Lower(s), t, i)
    {
      assert Lower(s)[i..i + |t|][k] == LowerChar(s[i + k]);
    }
  }

  /** Lower-casing leaves a text without upper-case letters as it is. */
  lemma LowerOfLower(s: string)
    requires forall c :: c in s ==> !IsUpper(c)
    ensures Lower(s) == s
  {
    assert forall i :: 0 <= i < |s| ==> s[i] in s;
  }

  lemma LowerSlice(s: string, i: nat, j: nat)
    requires i <= j <= |s|
    ensures Lower(s[i..j]) == Lower(s)[i..j]
  {
  }

  /** `s.trimStart()`: drops the leading white space and nothing else. */
  function TrimStart(s: string): (r: string)
    ensures |r| <= |s|
    ensures forall i {:trigger IsSpace(s[i])} :: 0 <= i < |s| - |r| ==> IsSpace(s[i])
    ensures r == [] || !IsSpace(r[0])
  {
    if s != [] && IsSpace(s[0]) then TrimStart(s[1..]) else s
  }

  /** `s.trimEnd()`: drops the trailing white space and nothing else. */
  function TrimEnd(s: string): (r: string)
    ensures |r| <= |s|
    ensures forall i {:trigger IsSpace(s[i])} :: |r| <= i < |s| ==> IsSpace(s[i])
    ensures r == [] || !IsSpace(r[|r| - 1])
  {
    if s != [] && IsSpace(s[|s| - 1]) then TrimEnd(s[..|s| - 1]) else s
  }

  /** What `TrimStart` keeps is the input's own suffix. */
  lemma {:induction false} TrimStartIsSuffix(s: string)
    ensures TrimStart(s) == s[|s| - |TrimStart(s)|..]
  {
    if s != [] && IsSpace(s[0]) {
      TrimStartIsSuffix(s[1..]);
      assert s[1..][|s| - 1 - |TrimStart(s)|..] == s[|s| - |TrimStart(s)|..];
    }
  }

  /** What `TrimEnd` keeps is the input's own prefix. */
  lemma {:induction false} TrimEndIsPrefix(s: string)
    ensures TrimEnd(s) == s[..|TrimEnd(s)|]
  {
    if s != [] && IsSpace(s[|s| - 1]) {
      TrimEndIsPrefix(s[..|s| - 1]);
      assert s[..|s| - 1][..|TrimEnd(s)|] == s[..|TrimEnd(s)|];
    }
  }

  /** `s.trim()`. */
  function Trim(s: string): string {
    TrimEnd(TrimStart(s))
  }

  /** Trimming keeps every word that neither starts nor ends with white space. */
  lemma TrimKeepsWord(s: string, w: string)
    requires w != [] && !IsSpace(w[0]) && !IsSpace(w[|w| - 1])
    requires Contains(s, w)
    ensures Contains(Trim(s), w)
  {
    TrimStartKeepsWord(s, w);
    TrimEndKeepsWord(TrimStart(s), w);
  }

  lemma TrimStartKeepsWord(s: string, w: string)
    requires w != [] && !IsSpace(w[0])
    requires Contains(s, w)
    ensures Contains(TrimStart(s), w)
  {
    TrimStartIsSuffix(s);
    DropRunKeepsWord(s, TrimStart(s), w, IsSpace);
  }

  /** Dropping a leading run of characters that satisfy `p` keeps every word that does
      not start with such a character. */
  lemma DropRunKeepsWord(s: string, r: string, w: string, p: char -> bool)
    requires |r| <= |s| && r == s[|s| - |r|..]
    requires forall i :: 0 <= i < |s| - |r| ==> p(s[i])
    requires w != [] && !p(w[0])
    requires Contains(s, w)
    ensures Contains(r, w)
  {
    var i :| 0 <= i <= |s| && OccursAt(s, w, i);
    var cut := |s| - |r|;
    assert s[i] == w[0];
    assert cut <= i;
    assert r[i - cut..i - cut + |w|] == w;
    assert OccursAt(r, w, i - cut);
  }

  lemma TrimEndKeepsWord(s: string, w: string)
    requires w != [] && !IsSpace(w[|w| - 1])
    requires Contains(s, w)
    ensures Contains(TrimEnd(s), w)
  {
    var i :| 0 <= i <= |s| && OccursAt(s, w, i);
    var b := TrimEnd(s);
    TrimEndIsPrefix(s);
    assert s[i + |w| - 1] == w[|w| - 1];
    assert i + |w| <= |b|;
    assert b[i..i + |w|] == w;
    assert OccursAt(b, w, i);
  }

  /** A character the list-marker pattern `[-•\d.\s]` accepts. */
  predicate IsMarkerChar(c: char) {
    c == '-' || c == '\U{2022}' || IsDigit(c) || c == '.' || IsSpace(c)
  }

  /** `s.replace(/^[-•\d.\s]+/, '')`: drops the longest leading run of marker characters. */
  function StripMarker(s: string): (r: string)
    ensures |r| <= |s|
    ensures forall i {:trigger IsMarkerChar(s[i])} :: 0 <= i < |s| - |r| ==> IsMarkerChar(s[i])
    ensures r == [] || !IsMarkerChar(r[0])
  {
    if s != [] && IsMarkerChar(s[0]) then StripMarker(s[1..]) else s
  }

  /** What `StripMarker` keeps is the input's own suffix. */
  lemma {:induction false} StripMarkerIsSuffix(s: string)
    ensures StripMarker(s) == s[|s| - |StripMarker(s)|..]
  {
    if s != [] && IsMarkerChar(s[0]) {
      StripMarkerIsSuffix(s[1..]);
      assert s[1..][|s| - 1 - |StripMarker(s)|..] == s[|s| - |StripMarker(s)|..];
    }
  }

  /** The text the salvager keeps of a list line: marker stripped, then trimmed. */
  function CleanItem(line: string): string {
    Trim(StripMarker(line))
  }

  /** Stripping the marker keeps every word that does not start with a marker character. */
  lemma StripMarkerKeepsWord(s: string, w: string)
    requires w != [] && !IsMarkerChar(w[0])
    requires Contains(s, w)
    ensures Contains(StripMarker(s), w)
  {
    StripMarkerIsSuffix(s);
    DropRunKeepsWord(s, StripMarker(s), w, IsMarkerChar);
  }

  /** A list item keeps every word that starts with neither a marker character nor
      white space and does not end with white space. */
  lemma CleanItemKeepsWord(line: string, w: string)
    requires w != [] && !IsMarkerChar(w[0]) && !IsSpace(w[|w| - 1])
    requires Contains(line, w)
    ensures Contains(CleanItem(line), w)
  {
    StripMarkerKeepsWord(line, w);
    TrimKeepsWord(StripMarker(line), w);
  }

  /** `/^\d+\./`: one or more digits at the start, then a dot. */
  predicate IsNumbered(s: string) {
    |s| >= 2 && IsDigit(s[0]) && DigitsThenDot(s[1..])
  }

  predicate DigitsThenDot(s: string) {
    s != [] && (s[0] == '.' || (IsDigit(s[0]) && DigitsThenDot(s[1..])))
  }

  /** The number a string of decimal digits spells, most significant digit first. */
  function DigitsValue(s: string): int {
    if s == [] then 0 else 10 * DigitsValue(s[..|s| - 1]) + (s[|s| - 1] as int - '0' as int)
  }

  /** Decimal rendering of a natural number, as JavaScript's template literals print it:
      digits only, spelling `n`, with no leading zero. */
  function NatToString(n: nat): (r: string)
    ensures r != []
    ensures forall i :: 0 <= i < |r| ==> IsDigit(r[i])
    ensures DigitsValue(r) == n
    ensures r[0] == '0' <==> n == 0
  {
    if n < 10 then [DigitChar(n)]
    else
      var prefix := NatToString(n / 10);
      var r := prefix + [DigitChar(n % 10)];
      assert r[..|r| - 1] == prefix;
      r
  }

  /** Distinct numbers print differently, so a "Line N" text names one line. */
  lemma NatToStringInjective(m: nat, n: nat)
    requires NatToString(m) == NatToString(n)
    ensures m == n
  {
  }

  function DigitChar(d: nat): (c: char)
    requires d < 10
    ensures IsDigit(c)
    ensures c as int - '0' as int == d
  {
    ('0' as int + d) as char
  }
}
