/**
 The few text operations of Go's standard library that the plugin relies on:
 decimal numbers (strconv.Itoa, strconv.ParseUint), splitting on white space
 (strings.Fields), joining (strings.Join) and line scanning (bufio.ScanLines).
 */
module Text {
  import opened Wrappers

  const MAX_UINT64: nat := 0xFFFF_FFFF_FFFF_FFFF

  // ---------- decimal numbers ----------

  function Digit(d: nat): (c: char)
    requires d < 10
    ensures c as int == 48 + d
  {
    "0123456789"[d]
  }

  function DigitValue(c: char): Option<nat> {
    if '0' <= c <= '9' then Some((c as int) - ('0' as int)) else None
  }

  lemma DigitValueOfDigit(d: nat)
    requires d < 10
    ensures DigitValue(Digit(d)) == Some(d)
  {
  }

  /** strconv.Itoa on non-negative numbers. */
  function Itoa(n: nat): (s: string)
    ensures s != []
  {
    if n < 10 then [Digit(n)] else Itoa(n / 10) + [Digit(n % 10)]
  }

  /** The number a string of decimal digits denotes; leading zeros are allowed. */
  function DecimalValue(s: string): Option<nat> {
    if s == [] then Some(0)
    else
      var high := DecimalValue(s[..|s| - 1]);
      var low := DigitValue(s[|s| - 1]);
      if high.Some? && low.Some? then Some(10 * high.value + low.value) else None
  }

  /** strconv.ParseUint(s, 10, 64): None stands for the syntax and the range error. */
  function ParseUint(s: string): Option<nat> {
    var v := DecimalValue(s);
    if s == [] || v.None? || v.value > MAX_UINT64 then None else v
  }

  lemma {:induction false} DecimalValueOfItoa(n: nat)
    ensures DecimalValue(Itoa(n)) == Some(n)
  {
    DigitValueOfDigit(n % 10);
    if n < 10 {
      assert Itoa(n)[..0] == [];
      assert Itoa(n)[0] == Digit(n);
    } else {
      DecimalValueOfItoa(n / 10);
      assert Itoa(n)[..|Itoa(n)| - 1] == Itoa(n / 10);
    }
  }

  /** Printing a uint64 and parsing it back is the identity; larger numbers are refused. */
  lemma ParseUintOfItoa(n: nat)
    ensures ParseUint(Itoa(n)) == if n < 0x1_0000_0000_0000_0000 then Some(n) else None
  {
    DecimalValueOfItoa(n);
  }

  lemma ItoaInjective(m: nat, n: nat)
    requires Itoa(m) == Itoa(n)
    ensures m == n
  {
    DecimalValueOfItoa(m);
    DecimalValueOfItoa(n);
  }

  lemma {:induction false} ItoaHasNoSpace(n: nat)
    ensures IsToken(Itoa(n))
  {
    if n >= 10 {
      ItoaHasNoSpace(n / 10);
    }
  }

  // ---------- white space and fields ----------

  /** unicode.IsSpace. */
  predicate IsSpace(c: char) {
    || c in "\t\U{0B}\U{0C}\n\r "
    || c == '\U{85}' || c == '\U{A0}' || c == '\U{1680}'
    || '\U{2000}' <= c <= '\U{200A}'
    || c == '\U{2028}' || c == '\U{2029}' || c == '\U{202F}' || c == '\U{205F}' || c == '\U{3000}'
  }

  /** The code points of the characters with the property White_Space. */
  lemma SpaceCodes(c: char)
    ensures
      var n := c as int;
      IsSpace(c) <==>
        || 9 <= n <= 13 || n == 32 || n == 133 || n == 160 || n == 5760
        || 8192 <= n <= 8202 || n == 8232 || n == 8233 || n == 8239 || n == 8287 || n == 12288
  {
  }

  ghost predicate IsToken(s: string) {
    s != [] && forall i :: 0 <= i < |s| ==> !IsSpace(s[i])
  }

  /** The length of the longest prefix without white space. */
  function TokenLength(s: string): (n: nat)
    ensures n <= |s|
    ensures forall i :: 0 <= i < n ==> !IsSpace(s[i])
    ensures n < |s| ==> IsSpace(s[n])
  {
    if s == [] || IsSpace(s[0]) then 0 else 1 + TokenLength(s[1..])
  }

  /** strings.Fields: the maximal runs of non-space characters, in order. */
  function Fields(s: string): (fields: seq<string>)
    ensures forall f :: f in fields ==> IsToken(f)
    decreases |s|
  {
    if s == [] then []
    else if IsSpace(s[0]) then Fields(s[1..])
    else [s[..TokenLength(s)]] + Fields(s[TokenLength(s)..])
  }

  /** strings.Join with a single space. */
  function Join(fields: seq<string>): string {
    if fields == [] then ""
    else if |fields| == 1 then fields[0]
    else fields[0] + " " + Join(fields[1..])
  }

  function Spaces(n: nat): string {
    if n == 0 then "" else " " + Spaces(n - 1)
  }

  /** A token at the end of the text is one field. */
  lemma FieldsOfToken(token: string)
    requires IsToken(token)
    ensures Fields(token) == [token]
  {
    assert TokenLength(token) == |token|;
    assert token[..|token|] == token;
    assert Fields(token[|token|..]) == [];
  }

  /** A token followed by a white-space character is the first field. */
  lemma FieldsOfTokenThen(token: string, sep: char, rest: string)
    requires IsToken(token) && IsSpace(sep)
    ensures Fields(token + [sep] + rest) == [token] + Fields(rest)
  {
    var s := token + [sep] + rest;
    var n := TokenLength(s);
    assert s[0] == token[0];
    assert forall i :: 0 <= i < |token| ==> s[i] == token[i];
    assert s[|token|] == sep;
    assert n == |token|;
    assert s[..n] == token;
    assert s[n..] == [sep] + rest;
    assert ([sep] + rest)[1..] == rest;
  }

  lemma {:induction false} FieldsSkipSpaces(n: nat, rest: string)
    ensures Fields(Spaces(n) + rest) == Fields(rest)
  {
    if n == 0 {
      assert Spaces(0) + rest == rest;
    } else {
      FieldsSkipSpaces(n - 1, rest);
      assert (Spaces(n) + rest)[1..] == Spaces(n - 1) + rest;
    }
  }

  /** Appending a white-space character adds no field. */
  lemma {:induction false} FieldsOfTrailingSpace(s: string, c: char)
    requires IsSpace(c)
    ensures Fields(s + [c]) == Fields(s)
    decreases |s|
  {
    var t := s + [c];
    if s == [] {
      assert t[1..] == [];
    } else if IsSpace(s[0]) {
      FieldsOfTrailingSpace(s[1..], c);
      assert t[1..] == s[1..] + [c];
    } else {
      var n := TokenLength(s);
      var m := TokenLength(t);
      assert forall i :: 0 <= i < |s| ==> t[i] == s[i];
      assert t[|s|] == c;
      assert m == n;
      assert t[..n] == s[..n];
      assert t[n..] == s[n..] + [c];
      FieldsOfTrailingSpace(s[n..], c);
    }
  }

  /** Splitting undoes joining: every list of tokens is recovered. */
  lemma {:induction false} FieldsOfJoin(tokens: seq<string>)
    requires forall t :: t in tokens ==> IsToken(t)
    ensures Fields(Join(tokens)) == tokens
  {
    if |tokens| == 1 {
      FieldsOfToken(tokens[0]);
    } else if |tokens| > 1 {
      FieldsOfJoin(tokens[1..]);
      FieldsOfTokenThen(tokens[0], ' ', Join(tokens[1..]));
      assert tokens == [tokens[0]] + tokens[1..];
    }
  }

  /** White space collapsed to single interior spaces, as joining the fields does. */
  function Normalize(s: string): string {
    Join(Fields(s))
  }

  /** Non-empty text whose only white space is single spaces between other characters. */
  ghost predicate Regular(s: string) {
    && s != []
    && !IsSpace(s[0])
    && !IsSpace(s[|s| - 1])
    && (forall i :: 0 <= i < |s| && IsSpace(s[i]) ==> s[i] == ' ')
    && (forall i :: 0 <= i < |s| - 1 && IsSpace(s[i]) ==> !IsSpace(s[i + 1]))
  }

  lemma {:induction false} JoinIsRegular(tokens: seq<string>)
    requires tokens != [] && forall t :: t in tokens ==> IsToken(t)
    ensures Regular(Join(tokens))
  {
    if |tokens| == 1 {
      assert IsToken(tokens[0]);
    } else {
      JoinIsRegular(tokens[1..]);
      var head, tail := tokens[0], Join(tokens[1..]);
      assert IsToken(head);
      var s := head + " " + tail;
      assert forall i :: 0 <= i < |head| ==> s[i] == head[i];
      assert s[|head|] == ' ';
      assert forall i :: |head| < i < |s| ==> s[i] == tail[i - |head| - 1];
    }
  }

  lemma {:induction false} RegularIsNormal(s: string)
    requires Regular(s)
    ensures Normalize(s) == s
    decreases |s|
  {
    var n := TokenLength(s);
    if n == |s| {
      FieldsOfToken(s);
    } else {
      var head, rest := s[..n], s[n + 1..];
      assert s[n] == ' ';
      assert s == head + [' '] + rest;
      FieldsOfTokenThen(head, ' ', rest);
      RestIsRegular(s, n);
      hide Regular, IsSpace;
      RegularIsNormal(rest);
      assert Fields(rest) != [];
      assert ([head] + Fields(rest))[1..] == Fields(rest);
    }
  }

  lemma RestIsRegular(s: string, n: nat)
    requires Regular(s) && 0 < n < |s| && IsSpace(s[n])
    ensures n + 1 < |s| && Regular(s[n + 1..])
  {
    hide IsSpace;
    var rest := s[n + 1..];
    assert rest[0] == s[n + 1];
    assert rest[|rest| - 1] == s[|s| - 1];
    assert forall i :: 0 <= i < |rest| ==> rest[i] == s[i + n + 1];
  }

  /** Exactly the regular texts survive splitting and joining unchanged. */
  lemma NormalIffRegular(s: string)
    requires s != []
    ensures Normalize(s) == s <==> Regular(s)
  {
    if Normalize(s) == s {
      JoinIsRegular(Fields(s));
    }
    if Regular(s) {
      RegularIsNormal(s);
    }
  }

  // ---------- lines ----------

  /** The position of the first line feed, or the length of the text. */
  function LineLength(s: string): (n: nat)
    ensures n <= |s|
    ensures forall i :: 0 <= i < n ==> s[i] != '\n'
    ensures n < |s| ==> s[n] == '\n'
  {
    if s == [] || s[0] == '\n' then 0 else 1 + LineLength(s[1..])
  }

  function DropCR(line: string): string {
    if line != [] && line[|line| - 1] == '\r' then line[..|line| - 1] else line
  }

  /** bufio.ScanLines over the whole text; a last line without line feed counts when it is not empty. */
  function ScanLines(s: string): seq<string>
    decreases |s|
  {
    if s == [] then []
    else
      var n := LineLength(s);
      [DropCR(s[..n])] + (if n < |s| then ScanLines(s[n + 1..]) else [])
  }

  lemma ScanLinesOfLineThen(line: string, rest: string)
    requires '\n' !in line
    ensures ScanLines(line + "\n" + rest) == [DropCR(line)] + ScanLines(rest)
  {
    var s := line + "\n" + rest;
    var n := LineLength(s);
    assert forall i :: 0 <= i < |line| ==> s[i] == line[i] && line[i] in line;
    assert s[|line|] == '\n';
    assert n == |line|;
    assert s[..n] == line;
    assert s[n + 1..] == rest;
  }

  lemma FieldsOfDropCR(line: string)
    ensures Fields(DropCR(line)) == Fields(line)
  {
    if line != [] && line[|line| - 1] == '\r' {
      FieldsOfTrailingSpace(DropCR(line), '\r');
      assert line == DropCR(line) + ['\r'];
    }
  }
}
