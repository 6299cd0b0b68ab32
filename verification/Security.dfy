/**
 Signature verification with replay protection (core/security.py).

 HMAC-SHA256 is a parameter: `mac(secret, message)` is the hex digest.
 */
module Security {
  import opened Prelude

  type Mac = (string, Bytes) -> string

  /** `Uncaught` stands for an exception that is neither of the two the function is
      documented to raise; the framework turns it into a 500. */
  datatype Verdict = Genuine | SignatureInvalid | TimestampExpired | Uncaught

  const MAX_AGE_SECONDS := 300

  // ---------- Python's int(text) ----------

  predicate IsDigit(c: char) { '0' <= c <= '9' }

  predicate IsSpace(c: char) {
    c == ' ' || '\t' <= c <= '\r' || c == '\U{85}' || c == '\U{A0}'
  }

  function StripLeft(s: string): string {
    if s != [] && IsSpace(s[0]) then StripLeft(s[1..]) else s
  }

  function StripRight(s: string): string {
    if s != [] && IsSpace(s[|s| - 1]) then StripRight(s[..|s| - 1]) else s
  }

  function Unsigned(s: string): string {
    if s != [] && (s[0] == '-' || s[0] == '+') then s[1..] else s
  }

  /** Digits, with single underscores allowed between two of them. */
  predicate DigitRun(s: string) {
    && s != [] && IsDigit(s[0]) && IsDigit(s[|s| - 1])
    && (forall i :: 0 <= i < |s| ==> IsDigit(s[i]) || s[i] == '_')
    && (forall i :: 0 < i < |s| ==> IsDigit(s[i - 1]) || IsDigit(s[i]))
  }

  function Digits(s: string): nat
    requires forall i :: 0 <= i < |s| ==> IsDigit(s[i]) || s[i] == '_'
  {
    if s == [] then 0
    else
      var init := Digits(s[..|s| - 1]);
      var c := s[|s| - 1];
      if IsDigit(c) then 10 * init + (c as int - '0' as int) else init
  }

  function ParseInt(s: string): Option<int> {
    var trimmed := StripRight(StripLeft(s));
    var digits := Unsigned(trimmed);
    if !DigitRun(digits) then None
    else if trimmed[0] == '-' then Some(-(Digits(digits) as int))
    else Some(Digits(digits))
  }

  lemma {:induction false} StripLeftDropsOnlySpace(s: string, c: char)
    requires c in s && !IsSpace(c)
    ensures c in StripLeft(s)
  {
    if s != [] && IsSpace(s[0]) {
      assert c in s[1..];
      StripLeftDropsOnlySpace(s[1..], c);
    }
  }

  lemma {:induction false} StripRightDropsOnlySpace(s: string, c: char)
    requires c in s && !IsSpace(c)
    ensures c in StripRight(s)
  {
    if s != [] && IsSpace(s[|s| - 1]) {
      assert c in s[..|s| - 1];
      StripRightDropsOnlySpace(s[..|s| - 1], c);
    }
  }

  /** int() rejects every text with a full stop in it. */
  lemma DotIsNoInteger(s: string)
    requires '.' in s
    ensures ParseInt(s).None?
  {
    StripLeftDropsOnlySpace(s, '.');
    StripRightDropsOnlySpace(StripLeft(s), '.');
    var trimmed := StripRight(StripLeft(s));
    var i :| 0 <= i < |trimmed| && trimmed[i] == '.';
    var digits := Unsigned(trimmed);
    assert digits == trimmed || (digits == trimmed[1..] && i > 0);
    assert digits[if digits == trimmed then i else i - 1] == '.';
  }

  lemma {:induction false} NatTextIsDigits(n: nat)
    ensures NatText(n) != [] && forall i :: 0 <= i < |NatText(n)| ==> IsDigit(NatText(n)[i])
    ensures Digits(NatText(n)) == n
  {
    if n >= 10 {
      NatTextIsDigits(n / 10);
      assert NatText(n)[..|NatText(n)| - 1] == NatText(n / 10);
    } else {
      assert NatText(n)[..0] == [];
    }
  }

  /** int(str(n)) == n */
  lemma IntTextParsesBack(n: int)
    ensures ParseInt(IntText(n)) == Some(n)
  {
    NatTextIsDigits(if n < 0 then -n else n);
    var text, digits := IntText(n), NatText(if n < 0 then -n else n);
    assert text[0] == (if n < 0 then '-' else digits[0]) && text[|text| - 1] == digits[|digits| - 1];
    assert StripLeft(text) == text by { assert !IsSpace(text[0]); }
    assert StripRight(text) == text by { assert !IsSpace(text[|text| - 1]); }
    assert Unsigned(text) == digits by { assert n < 0 ==> text[1..] == digits; }
    assert DigitRun(digits);
  }

  predicate AllSpace(s: string) {
    forall i :: 0 <= i < |s| ==> IsSpace(s[i])
  }

  lemma {:induction false} StripLeftCuts(left: string, core: string)
    requires AllSpace(left) && (core == [] || !IsSpace(core[0]))
    ensures StripLeft(left + core) == core
  {
    if left == [] {
      assert left + core == core;
    } else {
      assert (left + core)[1..] == left[1..] + core;
      StripLeftCuts(left[1..], core);
    }
  }

  lemma {:induction false} StripRightCuts(core: string, right: string)
    requires AllSpace(right) && (core == [] || !IsSpace(core[|core| - 1]))
    ensures StripRight(core + right) == core
  {
    if right == [] {
      assert core + right == core;
    } else {
      var n := |right| - 1;
      assert (core + right)[..|core| + n] == core + right[..n];
      StripRightCuts(core, right[..n]);
    }
  }

  lemma {:induction false} StripLeftLeaves(s: string) returns (left: string)
    ensures s == left + StripLeft(s) && AllSpace(left)
  {
    left := [];
    if s != [] && IsSpace(s[0]) {
      var more := StripLeftLeaves(s[1..]);
      left := [s[0]] + more;
    }
  }

  lemma {:induction false} StripRightLeaves(s: string) returns (right: string)
    ensures s == StripRight(s) + right && AllSpace(right)
  {
    right := [];
    if s != [] && IsSpace(s[|s| - 1]) {
      var more := StripRightLeaves(s[..|s| - 1]);
      right := more + [s[|s| - 1]];
    }
  }

  /** What int() reads as `n`: spaces, at most one sign, a run of digits with that value, spaces. */
  predicate IsReading(s: string, n: int, left: string, sign: string, run: string, right: string) {
    && s == left + (sign + run) + right && AllSpace(left) && AllSpace(right)
    && (sign == "" || sign == "+" || sign == "-") && DigitRun(run)
    && n == if sign == "-" then -(Digits(run) as int) else Digits(run)
  }

  lemma ReadingParses(s: string, n: int, left: string, sign: string, run: string, right: string)
    requires IsReading(s, n, left, sign, run, right)
    ensures ParseInt(s) == Some(n)
  {
    var core := sign + run;
    assert core[|core| - 1] == run[|run| - 1] && core[0] == if sign == "" then run[0] else sign[0];
    assert left + core + right == left + (core + right);
    StripLeftCuts(left, core + right);
    StripRightCuts(core, right);
    assert Unsigned(core) == run;
  }

  lemma UnsignedLeaves(text: string) returns (sign: string)
    ensures text == sign + Unsigned(text)
    ensures sign == "" || sign == "+" || sign == "-"
    ensures sign == "-" <==> text != [] && text[0] == '-'
  {
    sign := if text != [] && (text[0] == '-' || text[0] == '+') then [text[0]] else [];
    if sign != [] {
      assert sign == "+" || sign == "-";
      assert text == [text[0]] + text[1..];
    } else {
      assert text == sign + text;
    }
  }

  lemma ThreeParts(s: string, left: string, rest: string, core: string, right: string)
    requires s == left + rest && rest == core + right
    ensures s == left + core + right
  {
  }

  lemma ParsedTextIsAReading(s: string, n: int) returns (left: string, sign: string, run: string, right: string)
    requires ParseInt(s) == Some(n)
    ensures IsReading(s, n, left, sign, run, right)
  {
    left := StripLeftLeaves(s);
    right := StripRightLeaves(StripLeft(s));
    sign := UnsignedLeaves(StripRight(StripLeft(s)));
    run := Unsigned(StripRight(StripLeft(s)));
    ThreeParts(s, left, StripLeft(s), sign + run, right);
  }

  /** int() gives `n` for these texts and for no others. */
  lemma ParsesExactly(s: string, n: int)
    ensures ParseInt(s) == Some(n) <==> exists left, sign, run, right :: IsReading(s, n, left, sign, run, right)
  {
    if ParseInt(s) == Some(n) {
      var left, sign, run, right := ParsedTextIsAReading(s, n);
    }
    forall left, sign, run, right | IsReading(s, n, left, sign, run, right) ensures ParseInt(s) == Some(n) {
      ReadingParses(s, n, left, sign, run, right);
    }
  }

  function WithoutUnderscores(s: string): string {
    if s == [] then []
    else WithoutUnderscores(s[..|s| - 1]) + if s[|s| - 1] == '_' then [] else [s[|s| - 1]]
  }

  /** Underscores between digits do not count. */
  lemma {:induction false} UnderscoresDoNotCount(s: string)
    requires forall i :: 0 <= i < |s| ==> IsDigit(s[i]) || s[i] == '_'
    ensures forall i :: 0 <= i < |WithoutUnderscores(s)| ==> IsDigit(WithoutUnderscores(s)[i])
    ensures Digits(s) == Digits(WithoutUnderscores(s))
  {
    if s != [] {
      var init, c, plain := s[..|s| - 1], s[|s| - 1], WithoutUnderscores(s);
      UnderscoresDoNotCount(init);
      assert init == s[..|s| - 1] && (c == '_' || IsDigit(c));
      if c != '_' {
        assert plain == WithoutUnderscores(init) + [c];
        assert plain[..|plain| - 1] == WithoutUnderscores(init) && plain[|plain| - 1] == c;
      } else {
        assert !IsDigit(c) && plain == WithoutUnderscores(init);
      }
    }
  }

  // ---------- the signed message ----------

  predicate IsAscii(s: string) {
    forall i :: 0 <= i < |s| ==> s[i] as int < 128
  }

  function Ascii(s: string): (b: Bytes)
    requires IsAscii(s)
    ensures |b| == |s|
    ensures forall i :: 0 <= i < |s| ==> b[i] as int == s[i] as int
  {
    seq(|s|, i requires 0 <= i < |s| && IsAscii(s) => s[i] as int as Byte)
  }

  const DOT: Byte := 46

  function Frame(timestamp: string, body: Bytes): Bytes
    requires IsAscii(timestamp)
  {
    Ascii(timestamp) + [DOT] + body
  }

  /** Cuts a message at its first full stop. */
  function SplitAtDot(m: Bytes): (r: Option<(Bytes, Bytes)>)
    ensures r.Some? ==> r.value.0 + [DOT] + r.value.1 == m && DOT !in r.value.0
    ensures r.None? ==> DOT !in m
  {
    if m == [] then None
    else if m[0] == DOT then Some(([], m[1..]))
    else
      match SplitAtDot(m[1..])
      case None => None
      case Some((head, tail)) =>
        assert [m[0]] + head + [DOT] + tail == [m[0]] + (head + [DOT] + tail);
        Some(([m[0]] + head, tail))
  }

  lemma {:induction false} SplitAtDotInverts(head: Bytes, tail: Bytes)
    requires DOT !in head
    ensures SplitAtDot(head + [DOT] + tail) == Some((head, tail))
  {
    var m := head + [DOT] + tail;
    if head == [] {
      assert m[1..] == tail;
    } else {
      assert m[1..] == head[1..] + [DOT] + tail;
      SplitAtDotInverts(head[1..], tail);
      assert [m[0]] + head[1..] == head;
    }
  }

  /** The frame splits back into exactly the timestamp and the body it was made of. */
  lemma FrameSplitsBack(timestamp: string, body: Bytes)
    requires IsAscii(timestamp) && ParseInt(timestamp).Some?
    ensures SplitAtDot(Frame(timestamp, body)) == Some((Ascii(timestamp), body))
  {
    assert '.' !in timestamp by {
      if '.' in timestamp { DotIsNoInteger(timestamp); }
    }
    forall i | 0 <= i < |timestamp| ensures Ascii(timestamp)[i] != DOT {
      assert timestamp[i] in timestamp;
    }
    SplitAtDotInverts(Ascii(timestamp), body);
  }

  /** Two accepted timestamps and two bodies give one message only if they are equal. */
  lemma FrameIsUnambiguous(t1: string, b1: Bytes, t2: string, b2: Bytes)
    requires IsAscii(t1) && ParseInt(t1).Some?
    requires IsAscii(t2) && ParseInt(t2).Some?
    ensures Frame(t1, b1) == Frame(t2, b2) <==> t1 == t2 && b1 == b2
  {
    FrameSplitsBack(t1, b1);
    FrameSplitsBack(t2, b2);
    if Frame(t1, b1) == Frame(t2, b2) {
      assert Ascii(t1) == Ascii(t2);
      assert |t1| == |t2|;
      forall i | 0 <= i < |t1| ensures t1[i] == t2[i] {
        assert Ascii(t1)[i] == Ascii(t2)[i];
      }
    }
  }

  /** Without the integer check the framing would be ambiguous. */
  lemma FrameNeedsTheIntegerCheck()
    ensures IsAscii("1.2") && IsAscii("1")
    ensures Frame("1.2", [51]) == Frame("1", [50, 46, 51])
    ensures ParseInt("1.2").None?
  {
  }

  // ---------- verify_hmac ----------

  function VerifyHmac(mac: Mac, secret: string, body: Bytes, signature: string, timestamp: string, now: real): Verdict {
    match ParseInt(timestamp)
    case None => SignatureInvalid
    case Some(ts) =>
      var skew := now - ts as real;
      if skew > MAX_AGE_SECONDS as real then TimestampExpired
      else if skew < -(MAX_AGE_SECONDS as real) then TimestampExpired
      else if !IsAscii(timestamp) then Uncaught
      else if !IsAscii(signature) then Uncaught
      else if signature != mac(secret, Frame(timestamp, body)) then SignatureInvalid
      else Genuine
  }

  /** A signature accepted for two (timestamp, body) pairs, whatever the clock says, is a
      collision: the pairs are the same, or two different messages have one MAC. */
  lemma SignatureBindsTimestampAndBody(
    mac: Mac, secret: string, signature: string,
    t1: string, b1: Bytes, now1: real, t2: string, b2: Bytes, now2: real)
    requires VerifyHmac(mac, secret, b1, signature, t1, now1) == Genuine
    requires VerifyHmac(mac, secret, b2, signature, t2, now2) == Genuine
    ensures IsAscii(t1) && IsAscii(t2)
    ensures
      || (t1 == t2 && b1 == b2)
      || (Frame(t1, b1) != Frame(t2, b2) && mac(secret, Frame(t1, b1)) == mac(secret, Frame(t2, b2)))
  {
    FrameIsUnambiguous(t1, b1, t2, b2);
  }

  /** A sender that holds the secret and stamps its request with the time in seconds is
      accepted while the receiver's clock is within the window, and not outside it. */
  lemma HonestSendersAreAccepted(mac: Mac, secret: string, body: Bytes, sentAt: int, now: real)
    requires forall m :: IsAscii(mac(secret, m))
    ensures IsAscii(IntText(sentAt))
    ensures var signature := mac(secret, Frame(IntText(sentAt), body));
      VerifyHmac(mac, secret, body, signature, IntText(sentAt), now) ==
      if sentAt as real - 300.0 <= now <= sentAt as real + 300.0 then Genuine else TimestampExpired
  {
    IntTextParsesBack(sentAt);
    NatTextIsDigits(if sentAt < 0 then -sentAt else sentAt);
  }
}
