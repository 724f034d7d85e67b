/**
 * util/regexp: anchor stripping for label-matcher patterns and the two fixed
 * regular languages used to validate configured node addresses. The
 * languages are written out by hand, one disjunct per alternative of the
 * source's pattern.
 */
module Regexp {

  // ---------------------------------------------------------------------
  // Digit strings
  // ---------------------------------------------------------------------

  /** `\d` in Go's RE2 syntax: an ASCII digit. */
  predicate IsDigit(c: char) { '0' <= c <= '9' }

  predicate AllDigits(s: string) { forall i :: 0 <= i < |s| ==> IsDigit(s[i]) }

  function DigitValue(c: char): nat
    requires IsDigit(c)
  {
    (c as int) - ('0' as int)
  }

  /** The number a digit string denotes in decimal (leading zeros allowed). */
  function DecimalValue(s: string): nat
    requires AllDigits(s)
  {
    if |s| == 0 then 0 else 10 * DecimalValue(s[..|s| - 1]) + DigitValue(s[|s| - 1])
  }

  function Pow10(n: nat): nat { if n == 0 then 1 else 10 * Pow10(n - 1) }

  lemma DecimalValueStep(s: string, k: nat)
    requires AllDigits(s) && k < |s|
    ensures DecimalValue(s[..k + 1]) == 10 * DecimalValue(s[..k]) + DigitValue(s[k])
  {
    assert s[..k + 1][..k] == s[..k];
  }

  lemma {:induction false} DecimalValueBound(s: string)
    requires AllDigits(s)
    ensures DecimalValue(s) < Pow10(|s|)
  {
    if |s| > 0 {
      DecimalValueBound(s[..|s| - 1]);
    }
  }

  lemma DecimalValue3(s: string)
    requires |s| == 3 && AllDigits(s)
    ensures DecimalValue(s) == 100 * DigitValue(s[0]) + 10 * DigitValue(s[1]) + DigitValue(s[2])
  {
    assert s == s[..3];
    DecimalValueStep(s, 0);
    DecimalValueStep(s, 1);
    DecimalValueStep(s, 2);
  }

  lemma DecimalValue5(s: string)
    requires |s| == 5 && AllDigits(s)
    ensures DecimalValue(s) == 10000 * DigitValue(s[0]) + 1000 * DigitValue(s[1])
                               + 100 * DigitValue(s[2]) + 10 * DigitValue(s[3]) + DigitValue(s[4])
  {
    assert s == s[..5];
    DecimalValueStep(s, 0);
    DecimalValueStep(s, 1);
    DecimalValueStep(s, 2);
    DecimalValueStep(s, 3);
    DecimalValueStep(s, 4);
  }

  // ---------------------------------------------------------------------
  // RevisePattern
  // ---------------------------------------------------------------------

  /**
   * The inputs on which RevisePattern's slicing stays in bounds: `pattern[0:1]`
   * panics on the empty string, and after "^" loses its anchor the empty
   * rest makes `pattern[len(pattern)-1:]` panic.
   */
  predicate CanRevise(pattern: string) { |pattern| > 0 && pattern != "^" }

  function LeadingAnchor(p: string): nat { if |p| > 0 && p[0] == '^' then 1 else 0 }

  function TrailingAnchor(p: string): nat { if |p| > 0 && p[|p| - 1] == '$' then 1 else 0 }

  /**
   * Removes one leading `^` and one trailing `$`, because the backend's
   * regexp query is implicitly anchored at both ends.
   */
  function RevisePattern(pattern: string): (r: string)
    requires CanRevise(pattern)
    ensures LeadingAnchor(pattern) + TrailingAnchor(pattern) <= |pattern|
    ensures r == pattern[LeadingAnchor(pattern) .. |pattern| - TrailingAnchor(pattern)]
    ensures |pattern| - 2 <= |r| <= |pattern|
  {
    var p := if pattern[0..1] == "^" then pattern[1..] else pattern;
    if p[|p| - 1..] == "$" then p[0..|p| - 1] else p
  }

  /** A pattern with neither anchor passes through unchanged. */
  lemma RevisePatternUnanchored(p: string)
    requires |p| > 0 && p[0] != '^' && p[|p| - 1] != '$'
    ensures CanRevise(p) && RevisePattern(p) == p
  {
  }

  /** Stripping undoes anchoring: the anchors added around any q are exactly the ones removed. */
  lemma RevisePatternReanchor(q: string)
    ensures CanRevise("^" + q + "$")
    ensures RevisePattern("^" + q + "$") == q
  {
    var p := "^" + q + "$";
    assert p[0] == '^' && p[|p| - 1] == '$';
    assert p[1..|p| - 1] == q;
  }

  // ---------------------------------------------------------------------
  // Splitting on a separator
  // ---------------------------------------------------------------------

  function IndexOf(s: string, c: char): (i: nat)
    requires c in s
    ensures i < |s| && s[i] == c && c !in s[..i]
  {
    if s[0] == c then 0 else 1 + IndexOf(s[1..], c)
  }

  /** The fields of s between occurrences of sep (strings.Split semantics). */
  function Split(s: string, sep: char): (parts: seq<string>)
    ensures |parts| >= 1
    ensures forall i :: 0 <= i < |parts| ==> sep !in parts[i]
    decreases |s|
  {
    if sep !in s then [s]
    else
      var i := IndexOf(s, sep);
      [s[..i]] + Split(s[i + 1..], sep)
  }

  function Join(parts: seq<string>, sep: char): string
    requires |parts| >= 1
  {
    if |parts| == 1 then parts[0] else parts[0] + [sep] + Join(parts[1..], sep)
  }

  lemma {:induction false} JoinSplit(s: string, sep: char)
    ensures Join(Split(s, sep), sep) == s
    decreases |s|
  {
    if sep in s {
      var i := IndexOf(s, sep);
      var parts := Split(s, sep);
      var tail := Split(s[i + 1..], sep);
      assert parts == [s[..i]] + tail;
      assert parts[0] == s[..i] && parts[1..] == tail;
      JoinSplit(s[i + 1..], sep);
      assert Join(parts, sep) == s[..i] + [sep] + s[i + 1..];
      assert s == s[..i] + [sep] + s[i + 1..];
    }
  }

  /** The first separator after a separator-free field is the one that ends it. */
  lemma {:induction false} IndexOfAfterField(p: string, sep: char, rest: string)
    requires sep !in p
    ensures sep in p + [sep] + rest
    ensures IndexOf(p + [sep] + rest, sep) == |p|
  {
    var s := p + [sep] + rest;
    assert s[|p|] == sep;
    if |p| > 0 {
      assert s[0] == p[0];
      assert s[1..] == p[1..] + [sep] + rest;
      IndexOfAfterField(p[1..], sep, rest);
    }
  }

  lemma {:induction false} SplitJoin(parts: seq<string>, sep: char)
    requires |parts| >= 1
    requires forall i :: 0 <= i < |parts| ==> sep !in parts[i]
    ensures Split(Join(parts, sep), sep) == parts
  {
    if |parts| > 1 {
      var p0 := parts[0];
      var rest := Join(parts[1..], sep);
      var s := p0 + [sep] + rest;
      assert Join(parts, sep) == s;
      IndexOfAfterField(p0, sep, rest);
      assert s[..|p0|] == p0;
      assert s[|p0| + 1..] == rest;
      SplitJoin(parts[1..], sep);
      assert parts == [p0] + parts[1..];
    }
  }

  lemma Join4(a: string, b: string, c: string, d: string, sep: char)
    ensures Join([a, b, c, d], sep) == a + [sep] + b + [sep] + c + [sep] + d
  {
    assert [c, d][1..] == [d];
    assert Join([c, d], sep) == c + [sep] + d;
    assert [b, c, d][1..] == [c, d];
    assert Join([b, c, d], sep) == b + [sep] + (c + [sep] + d);
    assert [a, b, c, d][1..] == [b, c, d];
    assert Join([a, b, c, d], sep) == a + [sep] + (b + [sep] + (c + [sep] + d));
  }

  // ---------------------------------------------------------------------
  // MatchIp: ^((2[0-4]\d|25[0-5]|[01]?\d\d?)\.){3}(2[0-4]\d|25[0-5]|[01]?\d\d?)$
  // ---------------------------------------------------------------------

  /** The alternative `[01]?\d\d?`. */
  predicate ShortOctet(s: string)
  {
    || (|s| == 1 && IsDigit(s[0]))
    || (|s| == 2 && IsDigit(s[0]) && IsDigit(s[1]))
    || (|s| == 2 && (s[0] == '0' || s[0] == '1') && IsDigit(s[1]))
    || (|s| == 3 && (s[0] == '0' || s[0] == '1') && IsDigit(s[1]) && IsDigit(s[2]))
  }

  /** One octet group: `2[0-4]\d | 25[0-5] | [01]?\d\d?`. */
  predicate IpOctet(s: string)
  {
    || (|s| == 3 && s[0] == '2' && '0' <= s[1] <= '4' && IsDigit(s[2]))
    || (|s| == 3 && s[0] == '2' && s[1] == '5' && '0' <= s[2] <= '5')
    || ShortOctet(s)
  }

  /** Four octet groups separated by dots, nothing before or after. */
  predicate MatchIp(ip: string)
  {
    var parts := Split(ip, '.');
    |parts| == 4 && forall i :: 0 <= i < 4 ==> IpOctet(parts[i])
  }

  /** The octet groups are exactly the one- to three-digit strings of value at most 255. */
  lemma IpOctetValue(s: string)
    ensures IpOctet(s) <==> (1 <= |s| <= 3 && AllDigits(s) && DecimalValue(s) <= 255)
  {
    if 1 <= |s| <= 3 && AllDigits(s) {
      if |s| == 3 {
        DecimalValue3(s);
      } else {
        DecimalValueBound(s);
        assert Pow10(2) == 100;
      }
    }
  }

  /** Any four octet groups joined by dots form an accepted address. */
  lemma MatchIpDottedQuad(a: string, b: string, c: string, d: string)
    requires IpOctet(a) && IpOctet(b) && IpOctet(c) && IpOctet(d)
    ensures MatchIp(a + "." + b + "." + c + "." + d)
  {
    var parts := [a, b, c, d];
    forall i | 0 <= i < 4 ensures '.' !in parts[i] {
      IpOctetValue(parts[i]);
    }
    SplitJoin(parts, '.');
    Join4(a, b, c, d, '.');
  }

  /** Every accepted address is four octets of value at most 255 joined by dots. */
  lemma MatchIpDecomposes(ip: string)
    requires MatchIp(ip)
    ensures var parts := Split(ip, '.');
      && |parts| == 4
      && ip == parts[0] + "." + parts[1] + "." + parts[2] + "." + parts[3]
      && forall i :: 0 <= i < 4 ==> AllDigits(parts[i]) && 1 <= |parts[i]| <= 3 && DecimalValue(parts[i]) <= 255
  {
    var parts := Split(ip, '.');
    JoinSplit(ip, '.');
    assert parts == [parts[0], parts[1], parts[2], parts[3]];
    Join4(parts[0], parts[1], parts[2], parts[3], '.');
    forall i | 0 <= i < 4
      ensures AllDigits(parts[i]) && 1 <= |parts[i]| <= 3 && DecimalValue(parts[i]) <= 255
    {
      IpOctetValue(parts[i]);
    }
  }

  // ---------------------------------------------------------------------
  // MatchPort: ^([0-9]|[1-9]\d{1,3}|[1-5]\d{4}|6[0-5]{2}[0-3][0-5])$
  // ---------------------------------------------------------------------

  /** The port pattern as written, one disjunct per alternative. */
  predicate MatchPort(port: string)
  {
    || (|port| == 1 && IsDigit(port[0]))
    || (2 <= |port| <= 4 && '1' <= port[0] <= '9' && AllDigits(port[1..]))
    || (|port| == 5 && '1' <= port[0] <= '5' && AllDigits(port[1..]))
    || (|port| == 5 && port[0] == '6' && '0' <= port[1] <= '5' && '0' <= port[2] <= '5'
        && '0' <= port[3] <= '3' && '0' <= port[4] <= '5')
  }

  /** A TCP port written in canonical decimal: no leading zero (except "0"), value at most 65535. */
  predicate CanonicalPort(s: string)
  {
    1 <= |s| <= 5 && AllDigits(s) && (|s| == 1 || s[0] != '0') && DecimalValue(s) <= 65535
  }

  lemma AllDigitsOfTail(s: string)
    requires |s| > 0 && IsDigit(s[0]) && AllDigits(s[1..])
    ensures AllDigits(s)
  {
    forall i | 0 <= i < |s| ensures IsDigit(s[i]) {
      if i > 0 { assert s[i] == s[1..][i - 1]; }
    }
  }

  /** Everything the port pattern accepts is a canonical port number. */
  lemma MatchPortSound(s: string)
    ensures MatchPort(s) ==> CanonicalPort(s)
  {
    if MatchPort(s) {
      AllDigitsOfTail(s);
      if |s| == 5 {
        DecimalValue5(s);
      } else {
        DecimalValueBound(s);
        assert Pow10(4) == 10000;
        assert Pow10(|s|) <= Pow10(4);
      }
    }
  }

  /** The alternative `6[0-5]{2}[0-3][0-5]` also constrains the last three digits, so a valid port is refused. */
  lemma MatchPortRejectsPort60009()
    ensures CanonicalPort("60009")
    ensures !MatchPort("60009")
  {
    var s := "60009";
    assert AllDigits(s);
    DecimalValue5(s);
  }

  /**
   * The evidently intended port language: every canonical port 0..65535,
   * `[0-9]|[1-9]\d{1,3}|[1-5]\d{4}|6[0-4]\d{3}|65[0-4]\d{2}|655[0-2]\d|6553[0-5]`.
   */
  predicate ValidPort(port: string)
  {
    || (|port| == 1 && IsDigit(port[0]))
    || (2 <= |port| <= 4 && '1' <= port[0] <= '9' && AllDigits(port[1..]))
    || (|port| == 5 && '1' <= port[0] <= '5' && AllDigits(port[1..]))
    || (|port| == 5 && port[0] == '6' && '0' <= port[1] <= '4' && AllDigits(port[2..]))
    || (|port| == 5 && port[0] == '6' && port[1] == '5' && '0' <= port[2] <= '4' && AllDigits(port[3..]))
    || (|port| == 5 && port[0] == '6' && port[1] == '5' && port[2] == '5' && '0' <= port[3] <= '2' && IsDigit(port[4]))
    || (|port| == 5 && port[0] == '6' && port[1] == '5' && port[2] == '5' && port[3] == '3' && '0' <= port[4] <= '5')
  }

  /** The corrected pattern accepts exactly the canonical port numbers. */
  lemma ValidPortIff(s: string)
    ensures ValidPort(s) <==> CanonicalPort(s)
  {
    if |s| > 0 && IsDigit(s[0]) && (AllDigits(s[1..]) || AllDigits(s)) {
      if AllDigits(s[1..]) { AllDigitsOfTail(s); }
      if |s| == 5 {
        DecimalValue5(s);
      } else if |s| <= 4 {
        DecimalValueBound(s);
        assert Pow10(4) == 10000;
        assert Pow10(|s|) <= Pow10(4);
      }
    }
  }

  lemma DefaultIpOctets()
    ensures IpOctet("127") && IpOctet("0") && IpOctet("1")
  {
    var a := "127";
    assert |a| == 3 && a[0] == '1' && IsDigit(a[1]) && IsDigit(a[2]);
  }

  /** The defaults used when no node is configured pass both checks. */
  lemma DefaultAddressMatches()
    ensures MatchIp("127.0.0.1")
    ensures MatchPort("9200") && ValidPort("9200")
  {
    DefaultIpOctets();
    MatchIpDottedQuad("127", "0", "0", "1");
    assert "127" + "." + "0" + "." + "0" + "." + "1" == "127.0.0.1";
    assert MatchPort("9200");
  }
}
