/** The mood side of the socket server: the framing of incoming messages
    ('#' opens a value, '|' closes it) and the nudging of the shared Mood
    toward the baseline each value stands for.  Sockets and the client
    thread are not modelled; BuildMessage works on a given string. */
module Server {
  import opened Wrappers

  /** The range of a 32-bit int, which std::stoi checks. */
  const IntMin: int := -0x8000_0000
  const IntMax: int := 0x7FFF_FFFF

  /** The C locale's isspace. */
  predicate IsSpace(c: char) {
    c == ' ' || (9 <= c as int <= 13)
  }

  predicate IsDigit(c: char) {
    '0' <= c <= '9'
  }

  predicate AllDigits(s: string) {
    forall i :: 0 <= i < |s| ==> IsDigit(s[i])
  }

  /** The number of leading white-space characters. */
  function SpacePrefix(s: string): (n: nat)
    ensures n <= |s|
  {
    if s == [] || !IsSpace(s[0]) then 0 else 1 + SpacePrefix(s[1..])
  }

  /** The number of leading decimal digits. */
  function DigitPrefix(s: string): (n: nat)
    ensures n <= |s| && AllDigits(s[..n])
    ensures n < |s| ==> !IsDigit(s[n])
  {
    if s == [] || !IsDigit(s[0]) then 0
    else
      var n := 1 + DigitPrefix(s[1..]);
      assert forall i :: 1 <= i < n ==> s[..n][i] == s[1..][..n - 1][i - 1];
      n
  }

  /** The value of a string of decimal digits. */
  function DigitsValue(d: string): nat
    requires AllDigits(d)
  {
    if d == [] then 0
    else
      assert IsDigit(d[|d| - 1]);
      DigitsValue(d[..|d| - 1]) * 10 + (d[|d| - 1] as int - '0' as int)
  }

  /** std::stoi in base 10: white space, an optional sign, then at least
      one digit; the digits that follow are read and the rest ignored.
      None stands for the exceptions stoi throws: no digits
      (invalid_argument) or a value outside int (out_of_range). */
  function Stoi(s: string): (r: Option<int>)
    ensures r.Some? ==> IntMin <= r.value <= IntMax
  {
    var t := s[SpacePrefix(s)..];
    var negative := |t| > 0 && t[0] == '-';
    var u := if |t| > 0 && (t[0] == '-' || t[0] == '+') then t[1..] else t;
    var n := DigitPrefix(u);
    if n == 0 then None
    else
      var magnitude: int := DigitsValue(u[..n]);
      var v: int := if negative then -magnitude else magnitude;
      if IntMin <= v <= IntMax then Some(v) else None
  }

  /** The decimal spelling of a natural number, without leading zeros. */
  function Decimal(v: nat): (d: string)
    ensures |d| >= 1 && AllDigits(d)
  {
    if v < 10 then ['0' + v as char]
    else
      var front := Decimal(v / 10);
      var d := front + ['0' + (v % 10) as char];
      assert forall i :: 0 <= i < |front| ==> d[i] == front[i];
      d
  }

  lemma {:induction false} DecimalValue(v: nat)
    ensures DigitsValue(Decimal(v)) == v
  {
    if v >= 10 {
      DecimalValue(v / 10);
      assert Decimal(v)[..|Decimal(v)| - 1] == Decimal(v / 10);
    }
  }

  lemma {:induction false} DigitPrefixOf(d: string, rest: string)
    requires AllDigits(d)
    requires rest == [] || !IsDigit(rest[0])
    ensures DigitPrefix(d + rest) == |d|
  {
    if d != [] {
      assert (d + rest)[1..] == d[1..] + rest;
      DigitPrefixOf(d[1..], rest);
    }
  }

  /** stoi reads back what Decimal writes, whatever non-digit follows. */
  lemma StoiReadsDecimal(v: nat, rest: string)
    requires v <= IntMax
    requires rest == [] || !IsDigit(rest[0])
    ensures Stoi(Decimal(v) + rest) == Some(v)
  {
    var s := Decimal(v) + rest;
    assert s[0] == Decimal(v)[0];
    assert SpacePrefix(s) == 0;
    assert s[0..] == s;
    DigitPrefixOf(Decimal(v), rest);
    assert s[..|Decimal(v)|] == Decimal(v);
    DecimalValue(v);
  }

  /** The mood a message value stands for: 10, 30, 50, 70, 90 for 0 to 4. */
  function Baseline(messageValue: int): int {
    20 * (messageValue + 1) - 10
  }

  /** SocketServer::ProcessMessage: the step toward the baseline, 5 up or
      5 down, or 0 when Mood already sits on it.  It reads Mood and
      changes nothing. */
  function ProcessMessage(mood: int, messageValue: int): (r: int)
    ensures r == -5 || r == 0 || r == 5
    ensures r == 0 <==> mood == Baseline(messageValue)
    ensures r > 0 <==> Baseline(messageValue) > mood
    ensures Baseline(messageValue) - mood >= 5 ==> mood < mood + r <= Baseline(messageValue)
    ensures mood - Baseline(messageValue) >= 5 ==> Baseline(messageValue) <= mood + r < mood
  {
    var baseline := Baseline(messageValue);
    var multiplier := if baseline < mood then -1 else if baseline > mood then 1 else 0;
    5 * multiplier
  }

  /** BuildMessage stops at a '|' followed by anything but '#'. */
  predicate BreaksAt(message: string, i: nat)
    requires i < |message|
  {
    message[i] == '|' && i + 1 < |message| && message[i + 1] != '#'
  }

  /** Where BuildMessage stops reading: the first breaking '|', or the end. */
  function StopIndex(message: string): (r: nat)
    ensures r <= |message|
    ensures forall i :: 0 <= i < r ==> !BreaksAt(message, i)
    ensures r < |message| ==> BreaksAt(message, r)
  {
    StopFrom(message, 0)
  }

  function StopFrom(message: string, i: nat): (r: nat)
    requires i <= |message|
    requires forall j :: 0 <= j < i ==> !BreaksAt(message, j)
    ensures i <= r <= |message|
    ensures forall j :: 0 <= j < r ==> !BreaksAt(message, j)
    ensures r < |message| ==> BreaksAt(message, r)
    decreases |message| - i
  {
    if i == |message| then i
    else if BreaksAt(message, i) then i
    else StopFrom(message, i + 1)
  }

  /** The text with every '#' dropped. */
  function Strip(s: string): (r: string)
    ensures '#' !in r
    ensures forall c :: c in r ==> c in s
  {
    if s == [] then []
    else Strip(s[..|s| - 1]) + (if s[|s| - 1] == '#' then [] else [s[|s| - 1]])
  }

  lemma {:induction false} StripAppend(a: string, b: string)
    ensures Strip(a + b) == Strip(a) + Strip(b)
    decreases |b|
  {
    if b != [] {
      var front := b[..|b| - 1];
      assert (a + b)[..|a + b| - 1] == a + front;
      StripAppend(a, front);
    } else {
      assert a + b == a;
    }
  }

  lemma StripSnoc(s: string, i: nat)
    requires i < |s|
    ensures Strip(s[..i + 1]) == Strip(s[..i]) + (if s[i] == '#' then [] else [s[i]])
  {
    assert s[..i + 1][..i] == s[..i];
  }

  /** The '|'-terminated segments of a text, each with its closing '|', in
      the order they appear; text after the last '|' is not a segment. */
  function Segments(s: string): seq<string>
  {
    if s == [] then []
    else if s[|s| - 1] == '|' then Segments(s[..|s| - 1]) + [Pending(s[..|s| - 1]) + ['|']]
    else Segments(s[..|s| - 1])
  }

  /** The text after the last '|': the segment being built. */
  function Pending(s: string): (r: string)
    ensures '|' !in r
    ensures '#' !in s ==> '#' !in r
  {
    if s == [] || s[|s| - 1] == '|' then []
    else Pending(s[..|s| - 1]) + [s[|s| - 1]]
  }

  /** Every segment ends with its only '|'; a text without '#' has no
      segment with one. */
  lemma {:induction false} SegmentsShape(s: string)
    ensures forall seg :: seg in Segments(s) ==>
              |seg| >= 1 && seg[|seg| - 1] == '|' && '|' !in seg[..|seg| - 1] &&
              ('#' !in s ==> '#' !in seg)
  {
    if s != [] {
      var front := s[..|s| - 1];
      assert '#' !in s ==> '#' !in front;
      SegmentsShape(front);
      if s[|s| - 1] == '|' {
        var seg := Pending(front) + ['|'];
        assert seg[..|seg| - 1] == Pending(front);
      }
    }
  }

  /** One more character: a '|' closes the pending text into a new segment,
      any other character extends the pending text. */
  lemma SegmentsSnoc(s: string, c: char)
    ensures c != '|' ==> Segments(s + [c]) == Segments(s) && Pending(s + [c]) == Pending(s) + [c]
    ensures c == '|' ==> Segments(s + [c]) == Segments(s) + [Pending(s) + [c]] && Pending(s + [c]) == []
  {
    assert (s + [c])[..|s|] == s;
  }
  /** Appending text only adds segments after the ones already closed. */
  lemma {:induction false} SegmentsExtend(s: string, t: string) returns (more: seq<string>)
    ensures Segments(s + t) == Segments(s) + more
    decreases |t|
  {
    if t == [] {
      assert s + t == s;
      more := [];
    } else {
      var front := t[..|t| - 1];
      var m := SegmentsExtend(s, front);
      assert s + t == (s + front) + [t[|t| - 1]];
      SegmentsSnoc(s + front, t[|t| - 1]);
      if t[|t| - 1] == '|' {
        more := m + [Pending(s + front) + [t[|t| - 1]]];
      } else {
        more := m;
      }
    }
  }

  /** The effect of applying a sequence of segments to Mood: each segment's
      leading integer, read by stoi, nudges Mood from its current value.
      ok is false when stoi throws; the updates before it stay applied. */
  datatype Outcome = Outcome(mood: int, ok: bool)

  function Apply(mood: int, segments: seq<string>): Outcome
    decreases |segments|
  {
    if segments == [] then Outcome(mood, true)
    else match Stoi(segments[0])
      case None => Outcome(mood, false)
      case Some(v) => Apply(mood + ProcessMessage(mood, v), segments[1..])
  }

  /** Apply one segment to an outcome that has not failed. */
  function Then(o: Outcome, segment: string): Outcome {
    if !o.ok then o
    else match Stoi(segment)
      case None => Outcome(o.mood, false)
      case Some(v) => Outcome(o.mood + ProcessMessage(o.mood, v), true)
  }

  lemma {:induction false} ApplySnoc(mood: int, segments: seq<string>, segment: string)
    ensures Apply(mood, segments + [segment]) == Then(Apply(mood, segments), segment)
    decreases |segments|
  {
    if segments == [] {
      assert [] + [segment] == [segment];
      assert [segment][1..] == [];
    } else {
      assert (segments + [segment])[1..] == segments[1..] + [segment];
      match Stoi(segments[0])
      case None =>
      case Some(v) => ApplySnoc(mood + ProcessMessage(mood, v), segments[1..], segment);
    }
  }

  lemma {:induction false} ApplyAfterFailure(mood: int, segments: seq<string>, more: seq<string>)
    requires !Apply(mood, segments).ok
    ensures Apply(mood, segments + more) == Apply(mood, segments)
    decreases |segments|
  {
    assert segments != [];
    assert (segments + more)[0] == segments[0];
    assert (segments + more)[1..] == segments[1..] + more;
    match Stoi(segments[0])
    case None =>
    case Some(v) => ApplyAfterFailure(mood + ProcessMessage(mood, v), segments[1..], more);
  }

  /** Each applied segment moves Mood by at most 5. */
  lemma {:induction false} MoodChangeBound(mood: int, segments: seq<string>)
    ensures -5 * |segments| <= Apply(mood, segments).mood - mood <= 5 * |segments|
    decreases |segments|
  {
    if segments != [] {
      match Stoi(segments[0])
      case None =>
      case Some(v) => MoodChangeBound(mood + ProcessMessage(mood, v), segments[1..]);
    }
  }

  /** What BuildMessage does to Mood: the text up to the first breaking
      '|', without its '#' characters, cut into segments and applied. */
  function Receive(mood: int, message: string): Outcome {
    Apply(mood, Segments(Strip(message[..StopIndex(message)])))
  }

  /** No segment that is applied holds a '#'. */
  lemma SegmentsHoldNoHash(message: string)
    ensures forall seg :: seg in Segments(Strip(message[..StopIndex(message)])) ==> '#' !in seg
  {
    SegmentsShape(Strip(message[..StopIndex(message)]));
  }

  /** The protocol's example "#5|#0|#2|#3|" applies four values: from the
      initial mood 10 it goes to 15, 10, 15 and 20. */
  lemma ExampleMessage()
    ensures Segments(Strip("#5|#0|#2|#3|"[..StopIndex("#5|#0|#2|#3|")])) == ["5|", "0|", "2|", "3|"]
    ensures Receive(10, "#5|#0|#2|#3|") == Outcome(20, true)
  {
    var m := "#5|#0|#2|#3|";
    assert !BreaksAt(m, 2) && !BreaksAt(m, 5) && !BreaksAt(m, 8) && !BreaksAt(m, 11);
    assert StopIndex(m) == |m|;
    assert m[..|m|] == m;
    ExampleStrip();
    ExampleSegments();
    ExampleApply();
  }

  lemma ExampleStrip()
    ensures Strip("#5|#0|#2|#3|") == "5|0|2|3|"
  {
    StripBlocks('5', '0', '2', '3');
  }

  lemma StripBlocks(a: char, b: char, c: char, d: char)
    requires a != '#' && b != '#' && c != '#' && d != '#'
    ensures Strip(['#', a, '|', '#', b, '|', '#', c, '|', '#', d, '|']) == [a, '|', b, '|', c, '|', d, '|']
  {
    StripBlock(a);
    StripBlock(b);
    StripBlock(c);
    StripBlock(d);
    var ba, bb, bc, bd := ['#', a, '|'], ['#', b, '|'], ['#', c, '|'], ['#', d, '|'];
    StripAppend(ba + bb + bc, bd);
    StripAppend(ba + bb, bc);
    StripAppend(ba, bb);
    assert ['#', a, '|', '#', b, '|', '#', c, '|', '#', d, '|'] == ba + bb + bc + bd;
  }

  lemma ExampleSegments()
    ensures Segments("5|0|2|3|") == ["5|", "0|", "2|", "3|"]
  {
    assert Segments([]) == [] && Pending([]) == [];
    SegmentsBlock([], '5');
    assert [] + "5|" == "5|";
    SegmentsBlock("5|", '0');
    assert "5|" + "0|" == "5|0|";
    SegmentsBlock("5|0|", '2');
    assert "5|0|" + "2|" == "5|0|2|";
    SegmentsBlock("5|0|2|", '3');
    assert "5|0|2|" + "3|" == "5|0|2|3|";
  }

  lemma ExampleApply()
    ensures Apply(10, ["5|", "0|", "2|", "3|"]) == Outcome(20, true)
  {
    StoiDigit(5);
    StoiDigit(0);
    StoiDigit(2);
    StoiDigit(3);
    ApplyOne(10, "5|", ["0|", "2|", "3|"], 5);
    ApplyOne(15, "0|", ["2|", "3|"], 0);
    ApplyOne(10, "2|", ["3|"], 2);
    ApplyOne(15, "3|", [], 3);
  }

  /** A one-digit segment reads as its digit. */
  lemma StoiDigit(v: nat)
    requires v < 10
    ensures Stoi(['0' + v as char, '|']) == Some(v)
  {
    StoiReadsDecimal(v, "|");
    assert Decimal(v) + "|" == ['0' + v as char, '|'];
  }

  lemma ApplyOne(mood: int, segment: string, rest: seq<string>, v: int)
    requires Stoi(segment) == Some(v)
    ensures Apply(mood, [segment] + rest) == Apply(mood + ProcessMessage(mood, v), rest)
  {
    assert ([segment] + rest)[1..] == rest;
  }

  /** A value block "d|" closes one segment. */
  lemma SegmentsBlock(s: string, d: char)
    requires d != '|' && Pending(s) == []
    ensures Segments(s + [d, '|']) == Segments(s) + [[d, '|']]
    ensures Pending(s + [d, '|']) == []
  {
    SegmentsSnoc(s, d);
    SegmentsSnoc(s + [d], '|');
    assert Pending(s + [d]) == [d];
    assert [d] + ['|'] == [d, '|'];
    assert (s + [d]) + ['|'] == s + [d, '|'];
  }

  lemma StripBlock(d: char)
    requires d != '#'
    ensures Strip(['#', d, '|']) == [d, '|']
  {
    var b := ['#', d, '|'];
    assert b[..2] == ['#', d] && b[..2][..1] == ['#'] && b[..2][..1][..0] == [];
    assert Strip(['#']) == [];
    assert Strip(['#', d]) == [d];
  }

  /** A '|' followed by something other than '#' ends the message there,
      and the value before it is dropped: "#5|0|" changes nothing. */
  lemma UnframedValueIgnored()
    ensures Receive(10, "#5|0|") == Outcome(10, true)
  {
    var m := "#5|0|";
    assert BreaksAt(m, 2) && !BreaksAt(m, 0) && !BreaksAt(m, 1);
    assert StopIndex(m) == 2;
    assert m[..2] == ['#', '5'];
    assert ['#', '5'][..1] == ['#'] && ['#'][..0] == [];
    assert Strip(m[..2]) == "5";
  }

  /** class SocketServer, its mood side. */
  class SocketServer {
    var mood: int
    var hasClient: bool

    constructor ()
      ensures mood == 10 && !hasClient
    {
      mood := 10;
      hasClient := false;
    }

    /** SocketServer::BuildMessage: scan the message, skip '#', collect the
        characters of a segment and apply it at its '|'.  ok is false when
        stoi throws, which ends the scan with the earlier updates kept. */
    method BuildMessage(message: string) returns (ok: bool)
      modifies this
      ensures Outcome(mood, ok) == Receive(old(mood), message)
      ensures hasClient == old(hasClient)
    {
      var formatedMessage := "";
      var i := 0;
      while i < |message|
        invariant 0 <= i <= StopIndex(message)
        invariant hasClient == old(hasClient)
        invariant formatedMessage == Pending(Strip(message[..i]))
        invariant Apply(old(mood), Segments(Strip(message[..i]))) == Outcome(mood, true)
      {
        if BreaksAt(message, i) {
          break;
        }
        assert i + 1 <= StopIndex(message);
        StripSnoc(message, i);
        ghost var read := Strip(message[..i]);
        if message[i] == '#' {
          assert Strip(message[..i + 1]) == read + [] == read;
          i := i + 1;
          continue;
        }
        assert Strip(message[..i + 1]) == read + [message[i]];
        SegmentsSnoc(read, message[i]);
        formatedMessage := formatedMessage + [message[i]];
        if message[i] == '|' {
          ApplySnoc(old(mood), Segments(Strip(message[..i])), formatedMessage);
          var value := Stoi(formatedMessage);
          if value.None? {
            FailureKeepsMood(message, i + 1, old(mood));
            return false;
          }
          mood := mood + ProcessMessage(mood, value.value);
          formatedMessage := "";
        }
        i := i + 1;
      }
      assert i == StopIndex(message);
      return true;
    }
  }

  /** Once a segment fails to parse, the rest of the message does not
      matter. */
  lemma FailureKeepsMood(message: string, i: nat, mood: int)
    requires i <= StopIndex(message)
    requires !Apply(mood, Segments(Strip(message[..i]))).ok
    ensures Receive(mood, message) == Apply(mood, Segments(Strip(message[..i])))
  {
    var stop := StopIndex(message);
    assert message[..stop] == message[..i] + message[i..stop];
    StripAppend(message[..i], message[i..stop]);
    var more := SegmentsExtend(Strip(message[..i]), Strip(message[i..stop]));
    ApplyAfterFailure(mood, Segments(Strip(message[..i])), more);
  }
}
