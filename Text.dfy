/** The JavaScript string operations the pages rely on, over `string` = `seq<char>`. */
module Text {

  /** `String.prototype.toLowerCase` on one character; only A-Z are mapped. */
  function LowerChar(c: char): char {
    if 'A' <= c <= 'Z' then (c as int + 32) as char else c
  }

  function ToLower(s: string): string {
    seq(|s|, i requires 0 <= i < |s| => LowerChar(s[i]))
  }

  /** Lower-casing twice is lower-casing once. */
  lemma ToLowerIdempotent(s: string)
    ensures ToLower(ToLower(s)) == ToLower(s)
  {
  }

  /** `sub` occurs in `s` starting at position `i`. */
  predicate OccursAt(s: string, sub: string, i: int) {
    0 <= i && i + |sub| <= |s| && s[i..i + |sub|] == sub
  }

  /** `s.includes(sub)`. */
  function Contains(s: string, sub: string): bool
    decreases |s|
  {
    if |sub| > |s| then false
    else if s[..|sub|] == sub then true
    else Contains(s[1..], sub)
  }

  /** `includes` holds exactly when the text occurs somewhere. */
  lemma {:induction false} ContainsIffOccurs(s: string, sub: string)
    ensures Contains(s, sub) <==> exists i :: OccursAt(s, sub, i)
    decreases |s|
  {
    if |sub| > |s| {
    } else if s[..|sub|] == sub {
      assert OccursAt(s, sub, 0);
    } else {
      ContainsIffOccurs(s[1..], sub);
      forall i | OccursAt(s, sub, i) ensures OccursAt(s[1..], sub, i - 1) {
        assert s[1..][i - 1..i - 1 + |sub|] == s[i..i + |sub|];
      }
      if Contains(s[1..], sub) {
        var j :| OccursAt(s[1..], sub, j);
        assert s[1..][j..j + |sub|] == s[j + 1..j + 1 + |sub|];
        assert OccursAt(s, sub, j + 1);
      }
    }
  }

  /** `words.join(sep)`; the join of no words is the empty string. */
  function Join(words: seq<string>, sep: char): string {
    if words == [] then ""
    else if |words| == 1 then words[0]
    else words[0] + [sep] + Join(words[1..], sep)
  }

  /** `s.split(sep)`: the pieces between separators, one more piece than there are separators. */
  function Split(s: string, sep: char): (words: seq<string>)
    ensures |words| >= 1
    ensures forall w :: w in words ==> sep !in w
    ensures Join(words, sep) == s
  {
    if s == [] then [""]
    else
      var rest := Split(s[1..], sep);
      if s[0] == sep then
        assert Join([""] + rest, sep) == "" + [sep] + Join(rest, sep);
        [""] + rest
      else
        var words := [[s[0]] + rest[0]] + rest[1..];
        assert |rest| > 1 ==> Join(rest, sep) == rest[0] + [sep] + Join(rest[1..], sep);
        assert words[1..] == rest[1..];
        words
  }

  lemma {:induction false} SplitWordOnly(w: string, sep: char)
    requires sep !in w
    ensures Split(w, sep) == [w]
  {
    if w != [] {
      SplitWordOnly(w[1..], sep);
      assert [w[0]] + w[1..] == w;
    }
  }

  lemma {:induction false} SplitFirstWord(w: string, t: string, sep: char)
    requires sep !in w
    ensures Split(w + [sep] + t, sep) == [w] + Split(t, sep)
  {
    if w == [] {
      assert (w + [sep] + t)[1..] == t;
    } else {
      assert (w + [sep] + t)[1..] == w[1..] + [sep] + t;
      SplitFirstWord(w[1..], t, sep);
      assert [w[0]] + w[1..] == w;
    }
  }

  /** Splitting undoes joining words that contain no separator. */
  lemma {:induction false} SplitJoin(words: seq<string>, sep: char)
    requires |words| >= 1
    requires forall w :: w in words ==> sep !in w
    ensures Split(Join(words, sep), sep) == words
  {
    if |words| == 1 {
      SplitWordOnly(words[0], sep);
    } else {
      SplitJoin(words[1..], sep);
      SplitFirstWord(words[0], Join(words[1..], sep), sep);
      assert [words[0]] + words[1..] == words;
    }
  }

  /** Joining the first `n` words gives a prefix of the whole join, cut just before a separator. */
  lemma {:induction false} JoinPrefix(words: seq<string>, n: nat, sep: char)
    requires 1 <= n < |words|
    ensures Join(words, sep) == Join(words[..n], sep) + [sep] + Join(words[n..], sep)
  {
    if n > 1 {
      JoinPrefix(words[1..], n - 1, sep);
      assert words[1..][..n - 1] == words[..n][1..];
      assert words[1..][n - 1..] == words[n..];
    }
  }

  /** ECMAScript WhiteSpace and LineTerminator code points, which `String.prototype.trim` removes. */
  predicate IsSpace(c: char) {
    || c == '\t' || c == '\n' || c == '\U{B}' || c == '\U{C}' || c == '\r' || c == ' '
    || c == '\U{A0}' || c == '\U{1680}' || ('\U{2000}' <= c <= '\U{200A}')
    || c == '\U{2028}' || c == '\U{2029}' || c == '\U{202F}' || c == '\U{205F}'
    || c == '\U{3000}' || c == '\U{FEFF}'
  }

  /** `s` without its leading white space. */
  function TrimStart(s: string): string {
    if s != [] && IsSpace(s[0]) then TrimStart(s[1..]) else s
  }

  /** `s` without its trailing white space. */
  function TrimEnd(s: string): string {
    if s != [] && IsSpace(s[|s| - 1]) then TrimEnd(s[..|s| - 1]) else s
  }

  /** `TrimStart` removes exactly a run of white space from the front. */
  lemma {:induction false} TrimStartSpec(s: string)
    ensures |TrimStart(s)| <= |s| && TrimStart(s) == s[|s| - |TrimStart(s)|..]
    ensures TrimStart(s) == [] || !IsSpace(TrimStart(s)[0])
    ensures forall k :: 0 <= k < |s| - |TrimStart(s)| ==> IsSpace(s[k])
  {
    if s != [] && IsSpace(s[0]) {
      TrimStartSpec(s[1..]);
      var r := TrimStart(s[1..]);
      forall k | 1 <= k < |s| - |r| ensures IsSpace(s[k]) {
        assert s[k] == s[1..][k - 1];
      }
    }
  }

  /** `TrimEnd` removes exactly a run of white space from the back. */
  lemma {:induction false} TrimEndSpec(s: string)
    ensures |TrimEnd(s)| <= |s| && TrimEnd(s) == s[..|TrimEnd(s)|]
    ensures TrimEnd(s) == [] || !IsSpace(TrimEnd(s)[|TrimEnd(s)| - 1])
    ensures forall k :: |TrimEnd(s)| <= k < |s| ==> IsSpace(s[k])
  {
    if s != [] && IsSpace(s[|s| - 1]) {
      var front := s[..|s| - 1];
      TrimEndSpec(front);
      forall k | |TrimEnd(front)| <= k < |front| ensures IsSpace(s[k]) {
        assert s[k] == front[k];
      }
    }
  }

  /** `r` is `s` from position `i` on, with only white space around it. */
  ghost predicate TrimmedFrom(s: string, r: string, i: int) {
    && 0 <= i <= |s| - |r| && r == s[i..i + |r|]
    && (forall k :: 0 <= k < i ==> IsSpace(s[k]))
    && (forall k :: i + |r| <= k < |s| ==> IsSpace(s[k]))
  }

  /** `s.trim()`: `s` without its leading and trailing white space. */
  function Trim(s: string): string {
    TrimEnd(TrimStart(s))
  }

  /**
    The trimmed text is a contiguous piece of `s` with only white space around it, it neither
    starts nor ends with white space, and it is empty exactly when `s` is all white space.
  */
  lemma TrimSpec(s: string)
    ensures exists i :: TrimmedFrom(s, Trim(s), i)
    ensures Trim(s) == [] || (!IsSpace(Trim(s)[0]) && !IsSpace(Trim(s)[|Trim(s)| - 1]))
    ensures Trim(s) == [] <==> forall k :: 0 <= k < |s| ==> IsSpace(s[k])
  {
    var t := TrimStart(s);
    var r := TrimEnd(t);
    TrimStartSpec(s);
    TrimEndSpec(t);
    TrimmedPieces(s, t, r);
    assert TrimmedFrom(s, Trim(s), |s| - |t|);
    if r != [] {
      assert r[0] == t[0] == s[|s| - |t|];
    }
  }

  /** A suffix after leading white space, cut before trailing white space, is a trimmed piece. */
  lemma TrimmedPieces(s: string, t: string, r: string)
    requires |t| <= |s| && t == s[|s| - |t|..]
    requires forall k :: 0 <= k < |s| - |t| ==> IsSpace(s[k])
    requires |r| <= |t| && r == t[..|r|]
    requires forall k :: |r| <= k < |t| ==> IsSpace(t[k])
    ensures TrimmedFrom(s, r, |s| - |t|)
  {
    var i := |s| - |t|;
    assert r == s[i..i + |r|];
    forall k | i + |r| <= k < |s| ensures IsSpace(s[k]) {
      assert s[k] == t[k - i];
    }
  }

  /** The character of a decimal digit. */
  function DigitChar(d: nat): (c: char)
    requires d < 10
    ensures '0' <= c <= '9'
    ensures c as int - '0' as int == d
  {
    ['0', '1', '2', '3', '4', '5', '6', '7', '8', '9'][d]
  }

  /** The decimal text of a natural number, as a template literal prints it. */
  function NatToString(n: nat): (digits: string)
    ensures |digits| >= 1
    ensures forall i :: 0 <= i < |digits| ==> '0' <= digits[i] <= '9'
    ensures digits[0] == '0' ==> n == 0
  {
    if n < 10 then [DigitChar(n)] else NatToString(n / 10) + [DigitChar(n % 10)]
  }

  /** The number a run of decimal digits denotes, read most significant digit first. */
  function DecimalValue(digits: string): int {
    if digits == [] then 0
    else DecimalValue(digits[..|digits| - 1]) * 10 + (digits[|digits| - 1] as int - '0' as int)
  }

  /** Reading the printed digits back gives the number that was printed. */
  lemma {:induction false} NatToStringValue(n: nat)
    ensures DecimalValue(NatToString(n)) == n
  {
    var digits := NatToString(n);
    if n < 10 {
      assert digits[..0] == [];
    } else {
      assert digits[..|digits| - 1] == NatToString(n / 10);
      NatToStringValue(n / 10);
    }
  }
}
