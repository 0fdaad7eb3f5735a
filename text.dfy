/**
 * The string primitives of the JavaScript runtime that the import code relies on:
 * `trim`, `split(/\s+/)`, `split(",")`, `endsWith`, `includes` and `toLowerCase`.
 */
module Text {

  /** ECMAScript WhiteSpace and LineTerminator code points: the set used by both
      `String.prototype.trim` and the regular-expression class `\s`. */
  predicate IsSpace(c: char)
  {
    c == '\t' || c == '\n' || c == '\U{B}' || c == '\U{C}' || c == '\r' || c == ' '
    || c == '\U{A0}' || c == '\U{1680}' || ('\U{2000}' <= c <= '\U{200A}')
    || c == '\U{2028}' || c == '\U{2029}' || c == '\U{202F}' || c == '\U{205F}'
    || c == '\U{3000}' || c == '\U{FEFF}'
  }

  predicate NoSpace(s: string)
  {
    forall k :: 0 <= k < |s| ==> !IsSpace(s[k])
  }

  /** Drops leading white space (`trimStart`). */
  function TrimStart(s: string): (t: string)
    ensures |t| <= |s| && t == s[|s| - |t|..]
    ensures t == [] || !IsSpace(t[0])
    ensures forall k :: 0 <= k < |s| - |t| ==> IsSpace(s[k])
    decreases |s|
  {
    if |s| > 0 && IsSpace(s[0]) then TrimStart(s[1..]) else s
  }

  /** Drops trailing white space (`trimEnd`). */
  function TrimEnd(s: string): (t: string)
    ensures |t| <= |s| && t == s[..|t|]
    ensures t == [] || !IsSpace(t[|t| - 1])
    ensures forall k :: |t| <= k < |s| ==> IsSpace(s[k])
    decreases |s|
  {
    if |s| > 0 && IsSpace(s[|s| - 1]) then TrimEnd(s[..|s| - 1]) else s
  }

  /** `String.prototype.trim`. */
  function Trim(s: string): string
  {
    TrimEnd(TrimStart(s))
  }

  /** Trimming a trimmed string changes nothing (the import code trims twice). */
  lemma TrimIdempotent(s: string)
    ensures Trim(Trim(s)) == Trim(s)
  {
    var t := Trim(s);
    assert t == [] || (!IsSpace(t[0]) && !IsSpace(t[|t| - 1]));
    assert TrimStart(t) == t;
    assert TrimEnd(t) == t;
  }

  /** Index of the first white-space character of `s`, or `|s|` when there is none. */
  function FirstSpace(s: string): (i: nat)
    ensures i <= |s|
    ensures NoSpace(s[..i])
    ensures i < |s| ==> IsSpace(s[i])
    decreases |s|
  {
    if |s| == 0 then 0
    else if IsSpace(s[0]) then 0
    else 1 + FirstSpace(s[1..])
  }

  /** End of the white-space run of `s` that starts at `i`. */
  function SpaceRunEnd(s: string, i: nat): (j: nat)
    requires i <= |s|
    ensures i <= j <= |s|
    ensures forall k :: i <= k < j ==> IsSpace(s[k])
    ensures j == |s| || !IsSpace(s[j])
    decreases |s| - i
  {
    if i < |s| && IsSpace(s[i]) then SpaceRunEnd(s, i + 1) else i
  }

  /** `s.split(/\s+/)`: the pieces between maximal white-space runs. Like the
      JavaScript method it yields `[""]` for the empty string and an empty piece
      for a leading or trailing run. */
  function SplitWs(s: string): (parts: seq<string>)
    ensures |parts| >= 1
    ensures forall k :: 0 <= k < |parts| ==> NoSpace(parts[k])
    decreases |s|
  {
    var i := FirstSpace(s);
    if i == |s| then [s]
    else
      var j := SpaceRunEnd(s, i);
      [s[..i]] + SplitWs(s[j..])
  }

  /** A space after a space-free prefix is the first space. */
  lemma {:induction false} FirstSpaceAt(s: string, i: nat)
    requires i < |s| && NoSpace(s[..i]) && IsSpace(s[i])
    ensures FirstSpace(s) == i
    decreases i
  {
    if i > 0 {
      assert s[..i][0] == s[0];
      assert s[1..][..i - 1] == s[..i][1..];
      FirstSpaceAt(s[1..], i - 1);
    }
  }

  /** A word followed by one space and a text that does not start with a space is
      the first piece of `split(/\s+/)`. */
  lemma SplitWsWord(word: string, rest: string)
    requires word != [] && NoSpace(word)
    requires rest == [] || !IsSpace(rest[0])
    ensures SplitWs(word + " " + rest) == [word] + SplitWs(rest)
  {
    var s := word + " " + rest;
    var n := |word|;
    assert s[..n] == word;
    assert s[n] == ' ';
    FirstSpaceAt(s, n);
    assert n + 1 == |s| || s[n + 1] == rest[0];
    assert SpaceRunEnd(s, n + 1) == n + 1;
    assert SpaceRunEnd(s, n) == n + 1;
    assert s[n + 1..] == rest;
  }

  predicate IsWordList(words: seq<string>)
  {
    forall k :: 0 <= k < |words| ==> words[k] != [] && NoSpace(words[k])
  }

  lemma {:induction false} JoinEnds(words: seq<string>, sep: string)
    requires |words| >= 1 && IsWordList(words)
    ensures var s := Join(words, sep); |s| > 0 && s[0] == words[0][0] && s[|s| - 1] == words[|words| - 1][|words[|words| - 1]| - 1]
  {
    if |words| > 1 {
      var rest := Join(words[1..], sep);
      JoinEnds(words[1..], sep);
      var s := Join(words, sep);
      assert s == words[0] + (sep + rest);
      assert s[0] == words[0][0];
      assert s[|s| - 1] == rest[|rest| - 1];
      assert words[1..][|words[1..]| - 1] == words[|words| - 1];
    }
  }

  /** Words joined by single spaces have nothing for `trim` to remove. */
  lemma JoinTrimmed(words: seq<string>)
    requires |words| >= 1 && IsWordList(words)
    ensures Trim(Join(words, " ")) == Join(words, " ")
  {
    var s := Join(words, " ");
    JoinEnds(words, " ");
    assert TrimStart(s) == s;
    assert TrimEnd(s) == s;
  }

  /** A text without white space is a single piece. */
  lemma SplitWsNoSpace(s: string)
    requires NoSpace(s)
    ensures SplitWs(s) == [s]
  {
    assert FirstSpace(s) == |s|;
  }

  /** Words joined by single spaces split back into the same words. */
  lemma {:induction false} SplitWsJoin(words: seq<string>)
    requires |words| >= 1 && IsWordList(words)
    ensures SplitWs(Join(words, " ")) == words
  {
    if |words| == 1 {
      SplitWsNoSpace(words[0]);
    } else {
      var w, tail := words[0], words[1..];
      assert IsWordList(tail) by {
        forall k | 0 <= k < |tail|
          ensures tail[k] != [] && NoSpace(tail[k])
        {
          assert tail[k] == words[k + 1];
        }
      }
      var rest := Join(tail, " ");
      SplitWsJoin(tail);
      JoinEnds(tail, " ");
      assert !IsSpace(rest[0]) by {
        assert rest[0] == tail[0][0];
        assert NoSpace(tail[0]);
      }
      SplitWsWord(w, rest);
      assert Join(words, " ") == w + " " + rest;
      assert [w] + tail == words;
    }
  }

  /** Index of the first `sep` in `s`, or `|s|` when there is none. */
  function IndexOf(s: string, sep: char): (i: nat)
    ensures i <= |s|
    ensures sep !in s[..i]
    ensures i < |s| ==> s[i] == sep
    decreases |s|
  {
    if |s| == 0 then 0
    else if s[0] == sep then 0
    else 1 + IndexOf(s[1..], sep)
  }

  /** `s.split(sep)` for a one-character separator. */
  function Split(s: string, sep: char): (parts: seq<string>)
    ensures |parts| >= 1
    ensures forall k :: 0 <= k < |parts| ==> sep !in parts[k]
    decreases |s|
  {
    var i := IndexOf(s, sep);
    if i == |s| then [s] else [s[..i]] + Split(s[i + 1..], sep)
  }

  /** `parts.join(sep)`. */
  function Join(parts: seq<string>, sep: string): string
  {
    if |parts| == 0 then ""
    else if |parts| == 1 then parts[0]
    else parts[0] + sep + Join(parts[1..], sep)
  }

  /** Splitting and joining back with the same separator gives the input back. */
  lemma {:induction false} JoinSplit(s: string, sep: char)
    ensures Join(Split(s, sep), [sep]) == s
    decreases |s|
  {
    var i := IndexOf(s, sep);
    if i < |s| {
      var rest := Split(s[i + 1..], sep);
      JoinSplit(s[i + 1..], sep);
      assert Split(s, sep) == [s[..i]] + rest;
      assert s == s[..i] + [sep] + s[i + 1..];
    }
  }

  /** A prefix without `sep`, followed by `sep`, is the first piece of the split. */
  lemma {:induction false} SplitAtSeparator(a: string, sep: char, b: string)
    requires sep !in a
    ensures Split(a + [sep] + b, sep) == [a] + Split(b, sep)
  {
    var s := a + [sep] + b;
    var i := IndexOf(s, sep);
    assert s[|a|] == sep;
    assert forall k :: 0 <= k < |a| ==> s[k] == a[k];
    assert i == |a|;
    assert s[..i] == a;
    assert s[i + 1..] == b;
  }

  predicate StartsWith(s: string, prefix: string)
  {
    |prefix| <= |s| && s[..|prefix|] == prefix
  }

  /** `s.endsWith(suffix)` (case-sensitive). */
  predicate EndsWith(s: string, suffix: string)
  {
    |suffix| <= |s| && s[|s| - |suffix|..] == suffix
  }

  /** `s.includes(sub)`. */
  predicate Contains(s: string, sub: string)
  {
    exists i | 0 <= i <= |s| - |sub| :: OccursAt(s, sub, i)
  }

  predicate OccursAt(s: string, sub: string, i: nat)
  {
    i + |sub| <= |s| && s[i..i + |sub|] == sub
  }

  /** Every string that contains "lineaarea" contains "linea". */
  lemma ContainsLineaareaContainsLinea(s: string)
    requires Contains(s, "lineaarea")
    ensures Contains(s, "linea")
  {
    var i :| 0 <= i <= |s| - 9 && OccursAt(s, "lineaarea", i);
    assert s[i..i + 5] == s[i..i + 9][..5];
    assert OccursAt(s, "linea", i);
  }

  /** The `length` JavaScript reports for `s`: its UTF-16 code units, two for a
      character outside the Basic Multilingual Plane. */
  function Utf16Length(s: string): (n: nat)
    ensures |s| <= n <= 2 * |s|
  {
    if s == [] then 0 else Utf16Length(s[..|s| - 1]) + (if s[|s| - 1] as int > 0xFFFF then 2 else 1)
  }

  /** Within the Basic Multilingual Plane the two lengths agree. */
  lemma {:induction false} BmpUtf16Length(s: string)
    requires forall k :: 0 <= k < |s| ==> s[k] as int <= 0xFFFF
    ensures Utf16Length(s) == |s|
  {
    if s != [] {
      BmpUtf16Length(s[..|s| - 1]);
    }
  }

  function LowerChar(c: char): char
  {
    if 'A' <= c <= 'Z' then (c as int + 32) as char else c
  }

  /** `s.toLowerCase()` restricted to the ASCII letters. */
  function ToLower(s: string): (t: string)
    ensures |t| == |s|
    ensures forall k :: 0 <= k < |s| ==> t[k] == LowerChar(s[k])
  {
    seq(|s|, k requires 0 <= k < |s| => LowerChar(s[k]))
  }
}
