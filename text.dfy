/**
 * The string operations the handlers apply to user input: Python's
 * str.strip(), lower-casing, and the suffix test shared by Python's endswith
 * and JavaScript's endsWith.
 */
module Text {

  /** Python's str.isspace() on one character. */
  predicate IsSpace(c: char) {
    || '\t' <= c <= '\r'
    || '\U{1C}' <= c <= ' '
    || c == '\U{85}' || c == '\U{A0}' || c == '\U{1680}'
    || '\U{2000}' <= c <= '\U{200A}'
    || c == '\U{2028}' || c == '\U{2029}' || c == '\U{202F}' || c == '\U{205F}' || c == '\U{3000}'
  }

  /** Leading whitespace removed. */
  function TrimStart(s: string): string
    decreases |s|
  {
    if s != [] && IsSpace(s[0]) then TrimStart(s[1..]) else s
  }

  /** Trailing whitespace removed. */
  function TrimEnd(s: string): string
    decreases |s|
  {
    if s != [] && IsSpace(s[|s| - 1]) then TrimEnd(s[..|s| - 1]) else s
  }

  /** Python's str.strip(): `s` without its leading and trailing whitespace. */
  function Strip(s: string): string {
    TrimEnd(TrimStart(s))
  }

  /** The ASCII letters A-Z mapped to a-z; every other character unchanged. */
  function LowerChar(c: char): (d: char)
    ensures 'A' <= c <= 'Z' ==> 'a' <= d <= 'z' && d as int == c as int + 32
    ensures !('A' <= c <= 'Z') ==> d == c
  {
    if 'A' <= c <= 'Z' then (c as int + 32) as char else c
  }

  /** Lower-casing, character by character (ASCII letters only, see README). */
  function Lower(s: string): string
    decreases |s|
  {
    if s == [] then [] else [LowerChar(s[0])] + Lower(s[1..])
  }

  /**
   * TrimStart removes a run of whitespace from the front and nothing else:
   * what remains is a suffix of `s` that does not start with whitespace.
   */
  lemma {:induction false} TrimStartFacts(s: string)
    ensures var r := TrimStart(s);
      && |r| <= |s| && r == s[|s| - |r|..]
      && (r == [] || !IsSpace(r[0]))
      && (forall i :: 0 <= i < |s| - |r| ==> IsSpace(s[i]))
    decreases |s|
  {
    if s != [] && IsSpace(s[0]) {
      TrimStartFacts(s[1..]);
    }
  }

  /**
   * TrimEnd removes a run of whitespace from the back and nothing else:
   * what remains is a prefix of `s` that does not end with whitespace.
   */
  lemma {:induction false} TrimEndFacts(s: string)
    ensures var r := TrimEnd(s);
      && |r| <= |s| && r == s[..|r|]
      && (r == [] || !IsSpace(r[|r| - 1]))
      && (forall i :: |r| <= i < |s| ==> IsSpace(s[i]))
    decreases |s|
  {
    if s != [] && IsSpace(s[|s| - 1]) {
      TrimEndFacts(s[..|s| - 1]);
    }
  }

  /**
   * Strip leaves neither leading nor trailing whitespace, never lengthens,
   * and leaves nothing exactly when `s` is all whitespace.
   */
  lemma {:induction false} StripFacts(s: string)
    ensures var r := Strip(s);
      && (r == [] || (!IsSpace(r[0]) && !IsSpace(r[|r| - 1])))
      && (r == [] <==> forall i :: 0 <= i < |s| ==> IsSpace(s[i]))
      && |r| <= |s|
  {
    var t := TrimStart(s);
    TrimStartFacts(s);
    TrimEndFacts(t);
    var r := TrimEnd(t);
    if r != [] {
      assert r[0] == t[0];
      var k := |s| - |t|;
      assert s[k] == t[0] && !IsSpace(s[k]);
    }
  }

  /** Lower-casing keeps the length and maps every character by LowerChar. */
  lemma {:induction false} LowerFacts(s: string)
    ensures |Lower(s)| == |s|
    ensures forall i :: 0 <= i < |s| ==> Lower(s)[i] == LowerChar(s[i])
    decreases |s|
  {
    if s != [] {
      LowerFacts(s[1..]);
      forall i | 0 < i < |s| ensures Lower(s)[i] == LowerChar(s[i]) {
        assert Lower(s)[i] == Lower(s[1..])[i - 1];
      }
    }
  }

  /** No upper-case ASCII letter in `s`. */
  predicate NoCapitals(s: string) {
    forall i :: 0 <= i < |s| ==> !('A' <= s[i] <= 'Z')
  }

  /** A string without upper-case ASCII letters is its own lower-cased form. */
  lemma {:induction false} LowerOfLowerCase(s: string)
    requires NoCapitals(s)
    ensures Lower(s) == s
    decreases |s|
  {
    if s != [] {
      LowerOfLowerCase(s[1..]);
    }
  }

  /** Python's str.endswith and JavaScript's String.prototype.endsWith with one argument. */
  predicate EndsWith(s: string, suffix: string) {
    |suffix| <= |s| && s[|s| - |suffix|..] == suffix
  }

  /** `parts` joined with `sep` between consecutive elements: Python's sep.join(parts). */
  function Join(parts: seq<string>, sep: string): (r: string)
    ensures parts == [] ==> r == ""
    ensures |parts| == 1 ==> r == parts[0]
    decreases |parts|
  {
    if parts == [] then ""
    else if |parts| == 1 then parts[0]
    else parts[0] + sep + Join(parts[1..], sep)
  }

  /** The lengths of the parts added up. */
  function TotalLength(parts: seq<string>): nat
    decreases |parts|
  {
    if parts == [] then 0 else |parts[0]| + TotalLength(parts[1..])
  }

  /**
   * Joining one part more appends the separator and that part: the joined
   * string is the parts in order with `sep` between consecutive ones.
   */
  lemma {:induction false} JoinAppend(parts: seq<string>, sep: string, x: string)
    requires parts != []
    ensures Join(parts + [x], sep) == Join(parts, sep) + sep + x
    decreases |parts|
  {
    if |parts| == 1 {
      assert parts + [x] == [parts[0], x];
      assert [parts[0], x][1..] == [x];
    } else {
      var rest := parts[1..];
      assert (parts + [x])[1..] == rest + [x];
      JoinAppend(rest, sep, x);
    }
  }

  /**
   * The joined string is as long as the parts together plus one separator
   * between each two of them, and starts with the first part.
   */
  lemma {:induction false} JoinLength(parts: seq<string>, sep: string)
    requires parts != []
    ensures |Join(parts, sep)| == TotalLength(parts) + (|parts| - 1) * |sep|
    ensures parts[0] <= Join(parts, sep)
    decreases |parts|
  {
    if |parts| > 1 {
      JoinLength(parts[1..], sep);
    }
  }

  /** Python's repr of a list of strings that contain no quote character. */
  function ListRepr(parts: seq<string>): string {
    "[" + Join(seq(|parts|, i requires 0 <= i < |parts| => "'" + parts[i] + "'"), ", ") + "]"
  }

  /** The repr of a one-element list: the element in quotes, in brackets. */
  lemma ListReprOne(x: string)
    ensures ListRepr([x]) == "['" + x + "']"
  {
    var quoted := seq(|[x]|, i requires 0 <= i < |[x]| => "'" + [x][i] + "'");
    assert quoted == ["'" + x + "'"];
  }

  /** Stripping twice changes nothing more than stripping once. */
  lemma {:induction false} StripIdempotent(s: string)
    ensures Strip(Strip(s)) == Strip(s)
  {
    var r := Strip(s);
    StripFacts(s);
    assert TrimStart(r) == r by {
      if r != [] { assert !IsSpace(r[0]); }
    }
    assert TrimEnd(r) == r by {
      if r != [] { assert !IsSpace(r[|r| - 1]); }
    }
  }

  /** Lower-casing twice changes nothing more than lower-casing once. */
  lemma {:induction false} LowerIdempotent(s: string)
    ensures Lower(Lower(s)) == Lower(s)
  {
    var r := Lower(s);
    var rr := Lower(r);
    LowerFacts(s);
    LowerFacts(r);
    forall i | 0 <= i < |s| ensures rr[i] == r[i] {
      assert r[i] == LowerChar(s[i]);
    }
  }

  /** Lower-casing keeps every whitespace character where it is, so it commutes with Strip. */
  lemma {:induction false} StripOfLower(s: string)
    ensures Strip(Lower(s)) == Lower(Strip(s))
  {
    TrimStartOfLower(s);
    TrimEndOfLower(TrimStart(s));
  }

  lemma {:induction false} TrimStartOfLower(s: string)
    ensures TrimStart(Lower(s)) == Lower(TrimStart(s))
    decreases |s|
  {
    var l := Lower(s);
    if s != [] {
      LowerFacts(s);
      assert l[0] == LowerChar(s[0]);
      assert IsSpace(l[0]) == IsSpace(s[0]);
      if IsSpace(s[0]) {
        assert l[1..] == Lower(s[1..]);
        TrimStartOfLower(s[1..]);
      }
    }
  }

  lemma {:induction false} TrimEndOfLower(s: string)
    ensures TrimEnd(Lower(s)) == Lower(TrimEnd(s))
    decreases |s|
  {
    var l := Lower(s);
    if s != [] {
      LowerFacts(s);
      assert l[|s| - 1] == LowerChar(s[|s| - 1]);
      if IsSpace(s[|s| - 1]) {
        LowerOfPrefix(s, |s| - 1);
        TrimEndOfLower(s[..|s| - 1]);
      }
    }
  }

  lemma LowerOfPrefix(s: string, n: nat)
    requires n <= |s|
    ensures |Lower(s)| == |s| && Lower(s)[..n] == Lower(s[..n])
  {
    LowerFacts(s);
    var a, b := Lower(s)[..n], Lower(s[..n]);
    LowerFacts(s[..n]);
    assert |a| == |b|;
    forall i | 0 <= i < n ensures a[i] == b[i] {
      assert s[..n][i] == s[i];
    }
  }

  /** Removing leading whitespace keeps a suffix that starts with a non-space character. */
  lemma TrimStartKeepsSuffix(s: string, suffix: string)
    requires suffix != [] && !IsSpace(suffix[0])
    requires EndsWith(s, suffix)
    ensures EndsWith(TrimStart(s), suffix)
  {
    var t := TrimStart(s);
    TrimStartFacts(s);
    var n := |s| - |suffix|;
    assert s[n] == suffix[0];
    assert |s| - |t| <= n;
    assert t[|t| - |suffix|..] == s[n..];
  }

  /** Lower-casing keeps a suffix that has no upper-case letter. */
  lemma LowerKeepsSuffix(s: string, suffix: string)
    requires NoCapitals(suffix)
    requires EndsWith(s, suffix)
    ensures EndsWith(Lower(s), suffix)
  {
    var l := Lower(s);
    LowerFacts(s);
    var n := |s| - |suffix|;
    forall i | 0 <= i < |suffix| ensures l[n + i] == suffix[i] {
      assert s[n + i] == suffix[i];
      assert !('A' <= suffix[i] <= 'Z');
    }
    assert l[n..] == suffix;
  }

  /**
   * A suffix that starts and ends with a non-space character and has no
   * upper-case letter survives stripping and lower-casing of a string that
   * ends with it.
   */
  lemma {:induction false} SuffixSurvivesNormalisation(s: string, suffix: string)
    requires suffix != [] && !IsSpace(suffix[0]) && !IsSpace(suffix[|suffix| - 1])
    requires NoCapitals(suffix)
    requires EndsWith(s, suffix)
    ensures EndsWith(Lower(Strip(s)), suffix)
  {
    var t := TrimStart(s);
    TrimStartKeepsSuffix(s, suffix);
    TrimStartFacts(s);
    assert t[|t| - 1] == suffix[|suffix| - 1];
    assert TrimEnd(t) == t;
    LowerKeepsSuffix(t, suffix);
  }
}
