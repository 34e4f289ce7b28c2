/**
 * The few java.lang.String operations the diagnostics code relies on:
 * trim(), startsWith(), length(), the ASCII part of case-insensitive
 * comparison, and String.format called without arguments.
 */
module JavaStrings {
  import opened Results

  /** String.trim() removes every leading and trailing char at or below U+0020. */
  predicate IsTrimmable(c: char) {
    c <= ' '
  }

  /** How many chars trim() skips at the front: the leading trimmable ones. */
  function LeadingTrimmable(s: string): (n: nat)
    ensures n <= |s|
    ensures forall k :: 0 <= k < n ==> IsTrimmable(s[k])
    ensures n < |s| ==> !IsTrimmable(s[n])
  {
    if s != [] && IsTrimmable(s[0]) then 1 + LeadingTrimmable(s[1..]) else 0
  }

  /** How many chars trim() drops at the back: the trailing trimmable ones. */
  function TrailingTrimmable(s: string): (n: nat)
    ensures n <= |s|
    ensures forall k :: |s| - n <= k < |s| ==> IsTrimmable(s[k])
    ensures n < |s| ==> !IsTrimmable(s[|s| - n - 1])
  {
    if s != [] && IsTrimmable(s[|s| - 1]) then 1 + TrailingTrimmable(s[..|s| - 1]) else 0
  }

  /** Drops the leading trimmable chars: what is left is a suffix of s. */
  function TrimLeft(s: string): (r: string)
    ensures |r| <= |s|
    ensures forall k :: 0 <= k < |r| ==> r[k] == s[|s| - |r| + k]
    ensures forall k :: 0 <= k < |s| - |r| ==> IsTrimmable(s[k])
    ensures r != [] ==> !IsTrimmable(r[0])
  {
    s[LeadingTrimmable(s)..]
  }

  /** Drops the trailing trimmable chars: what is left is a prefix of s. */
  function TrimRight(s: string): (r: string)
    ensures |r| <= |s|
    ensures forall k :: 0 <= k < |r| ==> r[k] == s[k]
    ensures forall k :: |r| <= k < |s| ==> IsTrimmable(s[k])
    ensures r != [] ==> !IsTrimmable(r[|r| - 1])
  {
    s[..|s| - TrailingTrimmable(s)]
  }

  /**
   * r is the part of s that starts at i, and everything of s around it is
   * trimmable.
   */
  predicate TrimmedAt(s: string, r: string, i: int) {
    && 0 <= i && i + |r| <= |s|
    && r == s[i..i + |r|]
    && (forall k :: 0 <= k < i ==> IsTrimmable(s[k]))
    && (forall k :: i + |r| <= k < |s| ==> IsTrimmable(s[k]))
  }

  /** String.trim(): s without its leading and trailing whitespace. */
  function Trim(s: string): (r: string)
    ensures |r| <= |s|
    ensures exists i :: TrimmedAt(s, r, i)
    ensures r == [] <==> forall k :: 0 <= k < |s| ==> IsTrimmable(s[k])
    ensures r != [] ==> !IsTrimmable(r[0]) && !IsTrimmable(r[|r| - 1])
  {
    TrimIsSlice(s);
    TrimEnds(s);
    TrimRight(TrimLeft(s))
  }

  /** Both trims leave the part of s between its leading and its trailing whitespace. */
  lemma TrimIsSlice(s: string)
    ensures TrimmedAt(s, TrimRight(TrimLeft(s)), |s| - |TrimLeft(s)|)
  {
    var left := TrimLeft(s);
    var r := TrimRight(left);
    var i := |s| - |left|;
    forall k | i + |r| <= k < |s| ensures IsTrimmable(s[k]) {
      assert s[k] == left[k - i];
    }
    assert r == s[i..i + |r|];
  }

  /** Both trims leave nothing only for all-trimmable s, and otherwise non-trimmable ends. */
  lemma TrimEnds(s: string)
    ensures TrimRight(TrimLeft(s)) == [] <==> forall k :: 0 <= k < |s| ==> IsTrimmable(s[k])
    ensures TrimRight(TrimLeft(s)) != [] ==>
      !IsTrimmable(TrimRight(TrimLeft(s))[0]) && !IsTrimmable(TrimRight(TrimLeft(s))[|TrimRight(TrimLeft(s))| - 1])
  {
    var left := TrimLeft(s);
    var r := TrimRight(left);
    if r == [] {
      // left is empty too: its first char would be a trimmable one that TrimLeft kept.
      assert left == [];
    } else {
      assert r[0] == left[0];
    }
  }

  /** A string without surrounding whitespace is left alone by trim(). */
  lemma {:induction false} TrimOfTrimmed(s: string)
    requires s != [] ==> !IsTrimmable(s[0]) && !IsTrimmable(s[|s| - 1])
    ensures Trim(s) == s
  {
    assert TrimLeft(s) == s;
    assert TrimRight(s) == s;
  }

  /** Trimming twice is trimming once. */
  lemma TrimIdempotent(s: string)
    ensures Trim(Trim(s)) == Trim(s)
  {
    TrimOfTrimmed(Trim(s));
  }

  /** String.startsWith(prefix): s is at least as long as prefix and agrees with it char by char. */
  predicate StartsWith(s: string, prefix: string): (b: bool)
    ensures b <==> |prefix| <= |s| && forall k :: 0 <= k < |prefix| ==> s[k] == prefix[k]
  {
    |prefix| <= |s| && s[..|prefix|] == prefix
  }

  /**
   * How many UTF-16 code units a char takes in a Java string: two (a
   * surrogate pair) above U+FFFF, otherwise one.
   */
  function Utf16Units(c: char): nat {
    if c as int > 0xFFFF then 2 else 1
  }

  /** The positions of s holding a char above U+FFFF, which Java stores as a surrogate pair. */
  function Supplementary(s: string): set<nat> {
    set k: nat | k < |s| && Utf16Units(s[k]) == 2
  }

  /**
   * String.length(): the number of UTF-16 code units, one per char and one
   * more per surrogate pair, so between |s| and 2|s|.
   */
  function Utf16Length(s: string): (n: nat)
    ensures |s| <= n <= 2 * |s|
  {
    SupplementaryBound(s, |s|);
    |s| + |Supplementary(s)|
  }

  /** Among the first n chars at most n are supplementary. */
  lemma {:induction false} SupplementaryBound(s: string, n: nat)
    requires n <= |s|
    ensures |set k: nat | k < n && Utf16Units(s[k]) == 2| <= n
  {
    var before := set k: nat | k < n && Utf16Units(s[k]) == 2;
    if n == 0 {
      assert before == {};
    } else {
      var shorter := set k: nat | k < n - 1 && Utf16Units(s[k]) == 2;
      SupplementaryBound(s, n - 1);
      assert before <= shorter + {n - 1};
      SubsetCard(before, shorter + {n - 1});
    }
  }

  lemma SubsetCard(a: set<nat>, b: set<nat>)
    requires a <= b
    ensures |a| <= |b|
  {
    assert b == a + (b - a);
  }

  /** The Java length equals the number of chars exactly when no char lies above U+FFFF. */
  lemma Utf16LengthIsCharCount(s: string)
    ensures Utf16Length(s) == |s| <==> forall k :: 0 <= k < |s| ==> Utf16Units(s[k]) == 1
  {
    if forall k :: 0 <= k < |s| ==> Utf16Units(s[k]) == 1 {
      assert Supplementary(s) == {};
    } else {
      var k :| 0 <= k < |s| && Utf16Units(s[k]) != 1;
      assert k in Supplementary(s);
    }
  }

  /** A proper prefix is shorter in UTF-16 units too. */
  lemma Utf16LengthOfPrefix(p: string, s: string)
    requires |p| <= |s| && s[..|p|] == p
    ensures |p| < |s| ==> Utf16Length(p) < Utf16Length(s)
  {
    forall k | k in Supplementary(p) ensures k in Supplementary(s) {
      assert p[k] == s[..|p|][k];
    }
    SubsetCard(Supplementary(p), Supplementary(s));
  }

  /** Lower-cases the ASCII letters A-Z and leaves every other char alone. */
  function ToLowerAscii(s: string): (r: string)
    ensures |r| == |s|
    ensures forall k :: 0 <= k < |s| ==>
      r[k] == if 'A' <= s[k] <= 'Z' then (s[k] as int + 32) as char else s[k]
  {
    if s == [] then []
    else [if 'A' <= s[0] <= 'Z' then (s[0] as int + 32) as char else s[0]] + ToLowerAscii(s[1..])
  }

  /** A string without upper-case ASCII letters is its own lower-case form. */
  lemma LowerOfLower(s: string)
    requires forall k :: 0 <= k < |s| ==> !('A' <= s[k] <= 'Z')
    ensures ToLowerAscii(s) == s
  {
    var r := ToLowerAscii(s);
    assert forall k :: 0 <= k < |s| ==> r[k] == s[k];
  }

  /**
   * String.format(format) with no arguments: "%%" gives '%' and "%n" a line
   * separator; a '%' followed by anything else is taken to start a conversion
   * that needs an argument (or is malformed), so the call throws an
   * IllegalFormatException (None). Java's width and argument-index forms of
   * "%%" and "%n" ("%5%", "%1$n") are not recognised and fail here too.
   */
  function FormatWithoutArguments(format: string): (r: Option<string>)
    ensures (forall k :: 0 <= k < |format| ==> format[k] != '%') ==> r == Some(format)
  {
    if format == [] then Some([])
    else if format[0] != '%' then
      assert format == [format[0]] + format[1..];
      Prepend([format[0]], FormatWithoutArguments(format[1..]))
    else if |format| >= 2 && format[1] == '%' then Prepend("%", FormatWithoutArguments(format[2..]))
    else if |format| >= 2 && format[1] == 'n' then Prepend("\n", FormatWithoutArguments(format[2..]))
    else None
  }

  /** The formatted text of a specifier in front of that of the rest, unless the rest throws. */
  function Prepend(text: string, rest: Option<string>): Option<string> {
    match rest
    case None => None
    case Some(r) => Some(text + r)
  }

  /**
   * A '%' that follows only plain text and is not followed by '%' or 'n'
   * makes the call throw, whatever comes after it.
   */
  lemma {:induction false} FormatFailsOnConversion(prefix: string, c: char, suffix: string)
    requires forall k :: 0 <= k < |prefix| ==> prefix[k] != '%'
    requires c != '%' && c != 'n'
    ensures FormatWithoutArguments(prefix + ['%', c] + suffix) == None
  {
    var format := prefix + ['%', c] + suffix;
    if prefix == [] {
      assert format[0] == '%' && format[1] == c;
    } else {
      assert format[0] == prefix[0] != '%';
      assert format[1..] == prefix[1..] + ['%', c] + suffix;
      FormatFailsOnConversion(prefix[1..], c, suffix);
    }
  }

  /**
   * A "%%" or "%n" that follows only plain text formats to '%' or a line
   * separator, in front of whatever the rest formats to.
   */
  lemma {:induction false} FormatEscapes(prefix: string, c: char, suffix: string)
    requires forall k :: 0 <= k < |prefix| ==> prefix[k] != '%'
    requires c == '%' || c == 'n'
    ensures FormatWithoutArguments(prefix + ['%', c] + suffix)
         == Prepend(prefix + (if c == '%' then "%" else "\n"), FormatWithoutArguments(suffix))
  {
    var format := prefix + ['%', c] + suffix;
    var escaped := if c == '%' then "%" else "\n";
    if prefix == [] {
      assert FormatWithoutArguments(format) == Prepend(escaped, FormatWithoutArguments(suffix)) by {
        assert format[0] == '%' && format[1] == c && format[2..] == suffix;
      }
      assert prefix + escaped == escaped;
    } else {
      assert FormatWithoutArguments(format) == Prepend([prefix[0]], FormatWithoutArguments(format[1..])) by {
        assert format[0] == prefix[0] != '%';
      }
      assert FormatWithoutArguments(format[1..])
          == Prepend(prefix[1..] + escaped, FormatWithoutArguments(suffix)) by {
        assert format[1..] == prefix[1..] + ['%', c] + suffix;
        FormatEscapes(prefix[1..], c, suffix);
      }
      PrependTwice([prefix[0]], prefix[1..] + escaped, FormatWithoutArguments(suffix));
      assert [prefix[0]] + (prefix[1..] + escaped) == prefix + escaped by {
        assert prefix == [prefix[0]] + prefix[1..];
      }
    }
  }

  /** Proof helper: two texts put in front one after the other. */
  lemma PrependTwice(a: string, b: string, rest: Option<string>)
    ensures Prepend(a, Prepend(b, rest)) == Prepend(a + b, rest)
  {
    if rest.Some? {
      assert a + (b + rest.value) == a + b + rest.value;
    }
  }
}
