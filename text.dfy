/** The JavaScript string operations that the label parser and the placeholder
    label rely on: `String.prototype.split` with a one-character separator,
    `String.prototype.trim`, `includes`, and the decimal rendering of a
    non-negative integer in a template literal. Strings are sequences of
    Unicode scalar values. */
module JsText {

  /** The code points `trim` removes: ECMAScript WhiteSpace (tab, vertical tab,
      form feed, space, no-break space, byte order mark and the Unicode space
      separators) and LineTerminator (line feed, carriage return, line and
      paragraph separators). */
  predicate IsWhitespace(c: char) {
    c == '\t' || c == '\n' || c == '\r' || c == ' '
    || c == '\U{000B}' || c == '\U{000C}' || c == '\U{00A0}' || c == '\U{1680}'
    || ('\U{2000}' <= c <= '\U{200A}')
    || c == '\U{2028}' || c == '\U{2029}' || c == '\U{202F}' || c == '\U{205F}'
    || c == '\U{3000}' || c == '\U{FEFF}'
  }

  predicate AllWhitespace(s: string) {
    forall k :: 0 <= k < |s| ==> IsWhitespace(s[k])
  }

  /** `s` with its leading whitespace removed: a suffix of `s`. */
  function TrimStart(s: string): (r: string)
    ensures |r| <= |s| && r == s[|s| - |r|..]
    ensures r == [] || !IsWhitespace(r[0])
    ensures AllWhitespace(s[..|s| - |r|])
  {
    if s != [] && IsWhitespace(s[0]) then TrimStart(s[1..]) else s
  }

  /** `s` with its trailing whitespace removed: a prefix of `s`. */
  function TrimEnd(s: string): (r: string)
    ensures |r| <= |s| && r == s[..|r|]
    ensures r == [] || !IsWhitespace(r[|r| - 1])
    ensures AllWhitespace(s[|r|..])
  {
    if s != [] && IsWhitespace(s[|s| - 1]) then TrimEnd(s[..|s| - 1]) else s
  }

  /** `s` neither starts nor ends with whitespace. */
  predicate Trimmed(s: string) {
    s != [] ==> !IsWhitespace(s[0]) && !IsWhitespace(s[|s| - 1])
  }

  /** `String.prototype.trim`. */
  function Trim(s: string): (r: string)
    ensures |r| <= |s|
    ensures Trimmed(r)
    ensures r == [] <==> AllWhitespace(s)
  {
    TrimEnds(s);
    TrimEmpty(s);
    TrimEnd(TrimStart(s))
  }

  /** The trimmed string keeps no whitespace at either end. */
  lemma TrimEnds(s: string)
    ensures Trimmed(TrimEnd(TrimStart(s)))
  {
    var t := TrimStart(s);
    var r := TrimEnd(t);
    if r != [] {
      assert t[0] == r[0];
    }
  }

  /** Only an all-whitespace string trims to nothing. */
  lemma TrimEmpty(s: string)
    ensures TrimEnd(TrimStart(s)) == [] <==> AllWhitespace(s)
  {
    var t := TrimStart(s);
    var n := |s| - |t|;
    TrimEndEmpty(t);
    if TrimEnd(t) == [] {
      assert t == [];
      assert s[..n] == s;
    } else {
      assert s[n] == t[0];
    }
  }

  /** `TrimEnd` leaves nothing exactly of an all-whitespace string. */
  lemma TrimEndEmpty(t: string)
    ensures TrimEnd(t) == [] <==> AllWhitespace(t)
  {
    var r := TrimEnd(t);
    if r == [] {
      assert t[|r|..] == t;
    } else {
      assert t[|r| - 1] == r[|r| - 1];
    }
  }

  /** Trimming adds no character: what `s` lacks, its trim lacks too. */
  lemma TrimAddsNothing(s: string, c: char)
    requires c !in s
    ensures c !in Trim(s)
  {
    var t := TrimStart(s);
    var r := TrimEnd(t);
    assert t == s[|s| - |t|..];
    assert r == t[..|r|];
  }

  /** Trimming a string that is padded with whitespace on both sides and has
      no whitespace at its own ends gives back exactly that string. */
  lemma TrimPadded(before: string, middle: string, after: string)
    requires AllWhitespace(before) && AllWhitespace(after)
    requires Trimmed(middle)
    ensures Trim(before + middle + after) == middle
  {
    if middle == [] {
      assert AllWhitespace(before + middle + after);
    } else {
      assert before + middle + after == before + (middle + after);
      TrimStartPadded(before, middle + after);
      TrimEndPadded(middle, after);
    }
  }

  /** `TrimStart` removes exactly a leading run of whitespace. */
  lemma {:induction false} TrimStartPadded(before: string, rest: string)
    requires AllWhitespace(before)
    requires rest != [] && !IsWhitespace(rest[0])
    ensures TrimStart(before + rest) == rest
  {
    if before == [] {
      assert before + rest == rest;
    } else {
      assert (before + rest)[1..] == before[1..] + rest;
      TrimStartPadded(before[1..], rest);
    }
  }

  /** `TrimEnd` removes exactly a trailing run of whitespace. */
  lemma {:induction false} TrimEndPadded(rest: string, after: string)
    requires AllWhitespace(after)
    requires rest != [] && !IsWhitespace(rest[|rest| - 1])
    ensures TrimEnd(rest + after) == rest
  {
    if after == [] {
      assert rest + after == rest;
    } else {
      var last := |after| - 1;
      assert (rest + after)[..|rest| + last] == rest + after[..last];
      TrimEndPadded(rest, after[..last]);
    }
  }

  /** Trimming twice is trimming once. */
  lemma TrimIdempotent(s: string)
    ensures Trim(Trim(s)) == Trim(s)
  {
    TrimPadded([], Trim(s), []);
    assert [] + Trim(s) + [] == Trim(s);
  }

  /** The index of the first `c` in `s`, or `|s|` when there is none. */
  function FirstIndex(s: string, c: char): (r: nat)
    ensures r <= |s|
    ensures c !in s[..r]
    ensures r < |s| ==> s[r] == c
  {
    if s == [] then 0
    else if s[0] == c then 0
    else
      var r := 1 + FirstIndex(s[1..], c);
      assert s[..r] == [s[0]] + s[1..][..r - 1];
      r
  }

  /** `s.split(sep)`: the pieces between occurrences of `sep`. There is always
      at least one piece, and `"".split(sep)` is `[""]`. */
  function Split(s: string, sep: char): (r: seq<string>)
    ensures |r| >= 1
    ensures forall k :: 0 <= k < |r| ==> sep !in r[k]
  {
    if s == [] then [[]]
    else
      var rest := Split(s[1..], sep);
      if s[0] == sep then [[]] + rest
      else [[s[0]] + rest[0]] + rest[1..]
  }

  /** `parts.join(sep)`, the inverse of `Split`. */
  function Join(parts: seq<string>, sep: char): string
  {
    if parts == [] then []
    else if |parts| == 1 then parts[0]
    else parts[0] + [sep] + Join(parts[1..], sep)
  }

  /** Joining the pieces of a split with the same separator gives back the
      original string, so `Split` loses nothing but the separators. */
  lemma {:induction false} JoinSplit(s: string, sep: char)
    ensures Join(Split(s, sep), sep) == s
  {
    if s != [] {
      var rest := Split(s[1..], sep);
      JoinSplit(s[1..], sep);
      if s[0] == sep {
        assert Split(s, sep)[1..] == rest;
        assert s == [] + [sep] + s[1..];
      } else if |rest| == 1 {
        assert s == [s[0]] + s[1..];
      } else {
        var r := Split(s, sep);
        assert r[1..] == rest[1..];
        assert Join(rest, sep) == rest[0] + [sep] + Join(rest[1..], sep);
        assert s == [s[0]] + s[1..];
      }
    }
  }

  /** The first piece of a split is the text before the first separator. */
  lemma {:induction false} SplitHead(s: string, sep: char)
    ensures Split(s, sep)[0] == s[..FirstIndex(s, sep)]
  {
    if s != [] && s[0] != sep {
      SplitHead(s[1..], sep);
      assert s[..FirstIndex(s, sep)] == [s[0]] + s[1..][..FirstIndex(s[1..], sep)];
    }
  }

  /** When `sep` occurs in `s`, splitting cuts at its first occurrence and
      splits the remainder. */
  lemma {:induction false} SplitAtFirst(s: string, sep: char)
    requires sep in s
    ensures var i := FirstIndex(s, sep);
            Split(s, sep) == [s[..i]] + Split(s[i + 1..], sep)
  {
    if s[0] != sep {
      assert sep in s[1..] by {
        var j :| 0 <= j < |s| && s[j] == sep;
        assert s[1..][j - 1] == sep;
      }
      SplitAtFirst(s[1..], sep);
      var i := FirstIndex(s, sep);
      var rest := Split(s[1..], sep);
      assert Split(s, sep) == [[s[0]] + rest[0]] + rest[1..];
      assert s[i + 1..] == s[1..][FirstIndex(s[1..], sep) + 1..];
      assert rest[1..] == Split(s[i + 1..], sep);
      assert s[..i] == [s[0]] + s[1..][..FirstIndex(s[1..], sep)];
    }
  }

  function DigitChar(d: nat): (c: char)
    requires d < 10
    ensures '0' <= c <= '9'
  {
    ('0' as int + d) as char
  }

  /** The decimal digits of `n`, as `${n}` renders a non-negative integer. */
  function DecimalDigits(n: nat): (r: string)
    ensures r != []
    ensures forall k :: 0 <= k < |r| ==> '0' <= r[k] <= '9'
    ensures |r| > 1 ==> r[0] != '0'
  {
    if n < 10 then [DigitChar(n)] else DecimalDigits(n / 10) + [DigitChar(n % 10)]
  }

  /** The number a string of decimal digits denotes. */
  function DecimalValue(s: string): int
  {
    if s == [] then 0
    else DecimalValue(s[..|s| - 1]) * 10 + (s[|s| - 1] as int - '0' as int)
  }

  /** Reading the rendered digits gives the number back, so the rendering is
      injective. */
  lemma {:induction false} DecimalRoundTrip(n: nat)
    ensures DecimalValue(DecimalDigits(n)) == n
  {
    if n >= 10 {
      DecimalRoundTrip(n / 10);
      var s := DecimalDigits(n);
      assert s[..|s| - 1] == DecimalDigits(n / 10);
    }
  }
}
