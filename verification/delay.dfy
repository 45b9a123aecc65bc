/** The recording delay: a countdown printed to the terminal, one second per
    count, followed by a half-second pause. Terminal output and sleeping are
    the only effects, so the countdown is the trace of those effects. */
module Delay {
  import opened Wrappers

  /** One effect of the countdown: text written to the terminal, or a pause
      of the given number of milliseconds. */
  datatype Event = Write(text: string) | Sleep(ms: nat)

  const Backspace: string := [8 as char]
  const Alert: string := [7 as char]
  const Banner: string := "Recording in  "

  // ---------------------------------------------------------------------------
  // Decimal rendering of a count
  // ---------------------------------------------------------------------------

  predicate IsDigit(c: char)
  {
    '0' <= c <= '9'
  }

  function DigitChar(d: nat): (c: char)
    requires d < 10
    ensures IsDigit(c)
  {
    ('0' as int + d) as char
  }

  /** The decimal text of `n`, as `{count}` formats it. */
  function Decimal(n: nat): (s: string)
    ensures |s| >= 1
    ensures forall i :: 0 <= i < |s| ==> IsDigit(s[i])
    ensures n > 0 ==> s[0] != '0'
  {
    if n < 10 then [DigitChar(n)] else Decimal(n / 10) + [DigitChar(n % 10)]
  }

  /** The number a string of decimal digits denotes. */
  function DecimalValue(s: string): nat
    requires forall i :: 0 <= i < |s| ==> IsDigit(s[i])
  {
    if s == [] then 0
    else
      assert IsDigit(s[|s| - 1]);
      DecimalValue(s[..|s| - 1]) * 10 + (s[|s| - 1] as int - '0' as int)
  }

  /** Reading the printed count back gives the count. */
  lemma {:induction false} DecimalRoundTrip(n: nat)
    ensures DecimalValue(Decimal(n)) == n
    decreases n
  {
    var s := Decimal(n);
    if n >= 10 {
      DecimalRoundTrip(n / 10);
      assert s[..|s| - 1] == Decimal(n / 10);
    }
  }

  /** Distinct counts are printed differently. */
  lemma DecimalInjective(m: nat, n: nat)
    requires m != n
    ensures Decimal(m) != Decimal(n)
  {
    DecimalRoundTrip(m);
    DecimalRoundTrip(n);
  }

  // ---------------------------------------------------------------------------
  // The countdown
  // ---------------------------------------------------------------------------

  /** The counts `count`, `count - 1`, ..., 1: each written after a backspace
      and followed by `alert`, then a one-second pause. */
  function Countdown(count: nat, alert: string): seq<Event>
    decreases count
  {
    if count == 0 then []
    else [Write(Backspace + Decimal(count) + alert), Sleep(1000)] + Countdown(count - 1, alert)
  }

  /** `do_delay`: nothing without a delay; otherwise the banner, the
      countdown (with a bell after each count unless `quiet`), a carriage
      return and a half-second pause so the last bell is not recorded. */
  function DoDelay(delay: Option<nat>, quiet: bool): (t: seq<Event>)
    ensures delay.None? <==> t == []
    ensures delay.Some? ==>
              && |t| == 2 * delay.value + 3
              && t[0] == Write(Banner)
              && t[|t| - 2] == Write("\r")
              && t[|t| - 1] == Sleep(500)
  {
    match delay
    case None => []
    case Some(n) =>
      CountdownLength(n, if quiet then "" else Alert);
      [Write(Banner)] + Countdown(n, if quiet then "" else Alert) + [Write("\r"), Sleep(500)]
  }

  lemma {:induction false} CountdownLength(n: nat, alert: string)
    ensures |Countdown(n, alert)| == 2 * n
  {
    if n > 0 {
      CountdownLength(n - 1, alert);
    }
  }

  /** The `k`-th pair of the countdown prints `n - k` and then sleeps one
      second. */
  lemma {:induction false} CountdownAt(n: nat, alert: string, k: nat)
    requires k < n
    ensures |Countdown(n, alert)| == 2 * n
    ensures Countdown(n, alert)[2 * k] == Write(Backspace + Decimal(n - k) + alert)
    ensures Countdown(n, alert)[2 * k + 1] == Sleep(1000)
    decreases k
  {
    CountdownLength(n, alert);
    if k > 0 {
      var rest := Countdown(n - 1, alert);
      CountdownAt(n - 1, alert, k - 1);
      assert Countdown(n, alert)[2 * k] == rest[2 * (k - 1)];
      assert Countdown(n, alert)[2 * k + 1] == rest[2 * (k - 1) + 1];
    }
  }

  /** The counts run from `n` down to 1, each followed by one second. */
  lemma CountdownShape(n: nat, alert: string)
    ensures |Countdown(n, alert)| == 2 * n
    ensures forall k :: 0 <= k < n ==>
              && Countdown(n, alert)[2 * k] == Write(Backspace + Decimal(n - k) + alert)
              && Countdown(n, alert)[2 * k + 1] == Sleep(1000)
  {
    CountdownLength(n, alert);
    forall k | 0 <= k < n
      ensures Countdown(n, alert)[2 * k] == Write(Backspace + Decimal(n - k) + alert)
      ensures Countdown(n, alert)[2 * k + 1] == Sleep(1000)
    {
      CountdownAt(n, alert, k);
    }
  }

  /** The countdown events inside a `Some(n)` trace sit at positions 1 to
      `2n`: count `n - k` is written at `1 + 2k` and followed by a second. */
  lemma DelayCountsDown(n: nat, quiet: bool)
    ensures forall k :: 0 <= k < n ==>
              && DoDelay(Some(n), quiet)[1 + 2 * k] == Write(Backspace + Decimal(n - k) + (if quiet then "" else Alert))
              && DoDelay(Some(n), quiet)[2 + 2 * k] == Sleep(1000)
  {
    var alert := if quiet then "" else Alert;
    CountdownShape(n, alert);
    var t := DoDelay(Some(n), quiet);
    forall k | 0 <= k < n
      ensures t[1 + 2 * k] == Write(Backspace + Decimal(n - k) + alert)
      ensures t[2 + 2 * k] == Sleep(1000)
    {
      assert t[1 + 2 * k] == Countdown(n, alert)[2 * k];
      assert t[2 + 2 * k] == Countdown(n, alert)[2 * k + 1];
    }
  }

  // ---------------------------------------------------------------------------
  // Time spent and text written
  // ---------------------------------------------------------------------------

  /** Milliseconds slept over a trace. */
  function TotalSleep(t: seq<Event>): nat
  {
    if t == [] then 0 else (if t[0].Sleep? then t[0].ms else 0) + TotalSleep(t[1..])
  }

  /** Everything written to the terminal over a trace, in order. */
  function Printed(t: seq<Event>): string
  {
    if t == [] then [] else (if t[0].Write? then t[0].text else []) + Printed(t[1..])
  }

  lemma {:induction false} TotalSleepConcat(a: seq<Event>, b: seq<Event>)
    ensures TotalSleep(a + b) == TotalSleep(a) + TotalSleep(b)
    decreases |a|
  {
    if a == [] {
      assert a + b == b;
    } else {
      assert (a + b)[1..] == a[1..] + b;
      TotalSleepConcat(a[1..], b);
    }
  }

  lemma {:induction false} PrintedConcat(a: seq<Event>, b: seq<Event>)
    ensures Printed(a + b) == Printed(a) + Printed(b)
    decreases |a|
  {
    if a == [] {
      assert a + b == b;
    } else {
      assert (a + b)[1..] == a[1..] + b;
      PrintedConcat(a[1..], b);
    }
  }

  lemma {:induction false} CountdownSleep(n: nat, alert: string)
    ensures TotalSleep(Countdown(n, alert)) == 1000 * n
  {
    if n > 0 {
      var head: seq<Event> := [Write(Backspace + Decimal(n) + alert), Sleep(1000)];
      TotalSleepConcat(head, Countdown(n - 1, alert));
      CountdownSleep(n - 1, alert);
      assert TotalSleep(head) == 1000 by {
        assert head[1..] == [Sleep(1000)];
        assert head[1..][1..] == [];
      }
    }
  }

  /** A delay of `n` seconds sleeps exactly `1000 n + 500` milliseconds, and
      no delay does not sleep at all. */
  lemma DelaySleepTotal(delay: Option<nat>, quiet: bool)
    ensures delay.None? ==> TotalSleep(DoDelay(delay, quiet)) == 0
    ensures delay.Some? ==> TotalSleep(DoDelay(delay, quiet)) == 1000 * delay.value + 500
  {
    if delay.Some? {
      var n := delay.value;
      var alert := if quiet then "" else Alert;
      var tail: seq<Event> := [Write("\r"), Sleep(500)];
      TotalSleepConcat([Write(Banner)] + Countdown(n, alert), tail);
      TotalSleepConcat([Write(Banner)], Countdown(n, alert));
      CountdownSleep(n, alert);
      assert TotalSleep(tail) == 500 by {
        assert tail[1..] == [Sleep(500)];
        assert tail[1..][1..] == [];
      }
      assert TotalSleep([Write(Banner)]) == 0 by {
        assert [Write(Banner)][1..] == [];
      }
    }
  }

  /** How many times `c` occurs in `s`. */
  function Occurrences(s: string, c: char): nat
  {
    if s == [] then 0 else (if s[0] == c then 1 else 0) + Occurrences(s[1..], c)
  }

  lemma {:induction false} OccurrencesConcat(a: string, b: string, c: char)
    ensures Occurrences(a + b, c) == Occurrences(a, c) + Occurrences(b, c)
    decreases |a|
  {
    if a == [] {
      assert a + b == b;
    } else {
      assert (a + b)[1..] == a[1..] + b;
      OccurrencesConcat(a[1..], b, c);
    }
  }

  lemma {:induction false} OccurrencesAbsent(s: string, c: char)
    requires forall i :: 0 <= i < |s| ==> s[i] != c
    ensures Occurrences(s, c) == 0
    decreases |s|
  {
    if s != [] {
      OccurrencesAbsent(s[1..], c);
    }
  }

  /** Over the countdown each count writes one backspace, and one bell
      unless the alert is empty. */
  lemma {:induction false} CountdownCharacters(n: nat, alert: string)
    requires alert == "" || alert == Alert
    ensures Occurrences(Printed(Countdown(n, alert)), Alert[0]) == if alert == "" then 0 else n
    ensures Occurrences(Printed(Countdown(n, alert)), Backspace[0]) == n
  {
    if n > 0 {
      var text := Backspace + Decimal(n) + alert;
      var head: seq<Event> := [Write(text), Sleep(1000)];
      PrintedConcat(head, Countdown(n - 1, alert));
      assert Printed(head) == text by {
        assert head[1..] == [Sleep(1000)];
        assert head[1..][1..] == [];
      }
      CountdownCharacters(n - 1, alert);
      OccurrencesConcat(text, Printed(Countdown(n - 1, alert)), Alert[0]);
      OccurrencesConcat(text, Printed(Countdown(n - 1, alert)), Backspace[0]);
      OccurrencesConcat(Backspace + Decimal(n), alert, Alert[0]);
      OccurrencesConcat(Backspace + Decimal(n), alert, Backspace[0]);
      OccurrencesConcat(Backspace, Decimal(n), Alert[0]);
      OccurrencesConcat(Backspace, Decimal(n), Backspace[0]);
      OccurrencesAbsent(Decimal(n), Alert[0]);
      OccurrencesAbsent(Decimal(n), Backspace[0]);
      assert Backspace[1..] == [];
      if alert != "" {
        assert alert[1..] == [];
      }
    }
  }

  /** The text a `Some(n)` delay writes: the banner, the countdown's text and
      a carriage return. */
  lemma DelayPrinted(n: nat, quiet: bool)
    ensures Printed(DoDelay(Some(n), quiet)) == Banner + Printed(Countdown(n, if quiet then "" else Alert)) + "\r"
  {
    var alert := if quiet then "" else Alert;
    var tail: seq<Event> := [Write("\r"), Sleep(500)];
    var body := Countdown(n, alert);
    PrintedConcat([Write(Banner)] + body, tail);
    PrintedConcat([Write(Banner)], body);
    assert Printed([Write(Banner)]) == Banner by {
      assert [Write(Banner)][1..] == [];
    }
    assert Printed(tail) == "\r" by {
      assert tail[1..] == [Sleep(500)];
      assert tail[1..][1..] == [];
    }
  }

  /** The terminal hears one bell per count unless `quiet`, and none when
      `quiet`; one backspace is written per count, whatever its number of
      digits. */
  lemma DelayBellsAndBackspaces(n: nat, quiet: bool)
    ensures Occurrences(Printed(DoDelay(Some(n), quiet)), Alert[0]) == if quiet then 0 else n
    ensures Occurrences(Printed(DoDelay(Some(n), quiet)), Backspace[0]) == n
  {
    var alert := if quiet then "" else Alert;
    var text := Printed(Countdown(n, alert));
    DelayPrinted(n, quiet);
    CountdownCharacters(n, alert);
    forall c | c == Alert[0] || c == Backspace[0]
      ensures Occurrences(Banner + text + "\r", c) == Occurrences(text, c)
    {
      OccurrencesConcat(Banner + text, "\r", c);
      OccurrencesConcat(Banner, text, c);
      OccurrencesAbsent(Banner, c);
      OccurrencesAbsent("\r", c);
    }
  }
}
