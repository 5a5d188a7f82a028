/**
 * The shared helpers of the mini-program (src/lib/index.js): the server's base URL, the countdown formatter `formatTimeDiff` and the
 * resource-URL completion `resolveResourceURL`.
 */
module Lib {
  import opened Wrappers
  import Text

  /** Base URL of the server that relative paths are resolved against. */
  const API_BASE_URL: string := "http://27.150.128.4:8000"

  const MS_PER_HOUR: nat := 60 * 60 * 1000
  const MS_PER_MINUTE: nat := 60 * 1000
  const MS_PER_SECOND: nat := 1000

  /** A duration split into the three fields that `formatTimeDiff` prints. */
  datatype Clock = Clock(hours: nat, minutes: nat, seconds: nat)

  /** The milliseconds a clock reading stands for. */
  function Millis(c: Clock): nat {
    c.hours * MS_PER_HOUR + c.minutes * MS_PER_MINUTE + c.seconds * MS_PER_SECOND
  }

  /** A clock reading whose minutes and seconds are in 0..59; hours are unbounded. */
  predicate Normal(c: Clock) {
    c.minutes < 60 && c.seconds < 60
  }

  /**
   * The hours, minutes and seconds `formatTimeDiff` computes with floor division
   * and remainder. Only the sub-second remainder is lost, and hours do not wrap at 24.
   */
  function Components(timeDiff: nat): (c: Clock)
    ensures Normal(c)
    ensures Millis(c) <= timeDiff < Millis(c) + MS_PER_SECOND
  {
    var c := Clock(timeDiff / MS_PER_HOUR,
                   (timeDiff % MS_PER_HOUR) / MS_PER_MINUTE,
                   (timeDiff % MS_PER_MINUTE) / MS_PER_SECOND);
    ComponentsBounds(timeDiff, c);
    c
  }

  lemma DivModHour(n: nat, q: nat, r: nat)
    requires r < 3600000 && n == q * 3600000 + r
    ensures n / 3600000 == q && n % 3600000 == r
  {
  }

  lemma DivModMinute(n: nat, q: nat, r: nat)
    requires r < 60000 && n == q * 60000 + r
    ensures n / 60000 == q && n % 60000 == r
  {
  }

  lemma DivModSecond(n: nat, q: nat, r: nat)
    requires r < 1000 && n == q * 1000 + r
    ensures n / 1000 == q && n % 1000 == r
  {
  }

  lemma ComponentsBounds(timeDiff: nat, c: Clock)
    requires c.hours == timeDiff / 3600000
    requires c.minutes == (timeDiff % 3600000) / 60000
    requires c.seconds == (timeDiff % 60000) / 1000
    ensures Normal(c)
    ensures Millis(c) <= timeDiff < Millis(c) + 1000
  {
    var inHour := timeDiff % 3600000;
    var inMinute := inHour % 60000;
    assert inHour == c.minutes * 60000 + inMinute;
    assert timeDiff == (c.hours * 60 + c.minutes) * 60000 + inMinute;
    DivModMinute(timeDiff, c.hours * 60 + c.minutes, inMinute);
    assert inMinute == c.seconds * 1000 + inMinute % 1000;
  }

  /** The reading `Components` gives is the only normal reading within a second below `timeDiff`. */
  lemma ComponentsUnique(timeDiff: nat, c: Clock)
    requires Normal(c)
    requires Millis(c) <= timeDiff < Millis(c) + MS_PER_SECOND
    ensures c == Components(timeDiff)
  {
    var sub := timeDiff - Millis(c);
    var inMinute := c.seconds * 1000 + sub;
    var inHour := c.minutes * 60000 + inMinute;
    DivModHour(timeDiff, c.hours, inHour);
    DivModMinute(inHour, c.minutes, inMinute);
    DivModMinute(timeDiff, c.hours * 60 + c.minutes, inMinute);
    DivModSecond(inMinute, c.seconds, sub);
  }

  /** One field of the output: the decimal numeral left-padded with '0' to two characters. */
  function Field(n: nat): (f: string)
    ensures |f| >= 2 && Text.AllDigits(f)
    ensures Text.DecimalValue(f) == n
    ensures n < 100 ==> |f| == 2
    ensures n >= 10 ==> f == Text.DecimalString(n)
    ensures n < 10 ==> f == ['0'] + Text.DecimalString(n)
  {
    Text.PaddedNumeral(n, 2);
    Text.PadStart(Text.DecimalString(n), 2, '0')
  }

  predicate IsField(s: string) {
    s != [] && Text.AllDigits(s)
  }

  /** Reads "H:M:S" back: three non-empty digit fields separated by ':'. */
  function ParseTimeDiff(s: string): Option<Clock> {
    var parts := Text.SplitOn(s, ':');
    if |parts| == 3 && IsField(parts[0]) && IsField(parts[1]) && IsField(parts[2]) then
      Some(Clock(Text.DecimalValue(parts[0]), Text.DecimalValue(parts[1]), Text.DecimalValue(parts[2])))
    else
      None
  }

  lemma DigitsHoldNoColon(s: string)
    requires Text.AllDigits(s)
    ensures ':' !in s
  {
    forall i | 0 <= i < |s| ensures s[i] != ':' {
      assert Text.IsDigit(s[i]);
    }
  }

  /** Three digit fields joined by ':' read back as the numbers they denote. */
  lemma ParseJoinedFields(h: string, m: string, s: string)
    requires IsField(h) && IsField(m) && IsField(s)
    ensures ParseTimeDiff(h + ":" + m + ":" + s)
         == Some(Clock(Text.DecimalValue(h), Text.DecimalValue(m), Text.DecimalValue(s)))
  {
    DigitsHoldNoColon(h);
    DigitsHoldNoColon(m);
    DigitsHoldNoColon(s);
    var tail := m + [':'] + s;
    var parts := [h, m, s];
    assert Text.SplitOn(tail, ':') == [m, s] by {
      Text.SplitOnPlain(s, ':');
      Text.SplitOnJoined(m, s, ':');
      assert [m] + [s] == [m, s];
    }
    assert Text.SplitOn(h + [':'] + tail, ':') == parts by {
      Text.SplitOnJoined(h, tail, ':');
      assert [h] + [m, s] == parts;
    }
    assert h + ":" + m + ":" + s == h + [':'] + tail;
    assert IsField(parts[0]) && IsField(parts[1]) && IsField(parts[2]);
  }

  /**
   * The template literal of `formatTimeDiff`: the three fields joined by ':'.
   * Nothing is lost: the text reads back as the reading.
   */
  function Render(c: Clock): (r: string)
    ensures ParseTimeDiff(r) == Some(c)
  {
    ParseJoinedFields(Field(c.hours), Field(c.minutes), Field(c.seconds));
    Field(c.hours) + ":" + Field(c.minutes) + ":" + Field(c.seconds)
  }

  /**
   * `formatTimeDiff(timeDiff)` on a natural number of milliseconds: the output is
   * three decimal fields joined by ':' that spell the components of `timeDiff`.
   */
  function FormatTimeDiff(timeDiff: nat): (r: string)
    ensures ParseTimeDiff(r) == Some(Components(timeDiff))
  {
    Render(Components(timeDiff))
  }

  /** The number of whole seconds a clock reading stands for. */
  function TotalSeconds(c: Clock): nat {
    c.hours * 3600 + c.minutes * 60 + c.seconds
  }

  /** Any reading within a second below `n` stands for the whole seconds in `n`. */
  lemma SecondsOf(n: nat, c: Clock)
    requires Millis(c) <= n < Millis(c) + MS_PER_SECOND
    ensures Millis(c) == TotalSeconds(c) * 1000
    ensures n / 1000 == TotalSeconds(c)
  {
    DivModSecond(n, TotalSeconds(c), n - Millis(c));
  }

  /** The whole seconds in `timeDiff` are the seconds the components stand for. */
  lemma WholeSeconds(timeDiff: nat)
    ensures Millis(Components(timeDiff)) == TotalSeconds(Components(timeDiff)) * 1000
    ensures timeDiff / 1000 == TotalSeconds(Components(timeDiff))
  {
    SecondsOf(timeDiff, Components(timeDiff));
  }

  lemma SameTextSameSecond(a: nat, b: nat)
    requires FormatTimeDiff(a) == FormatTimeDiff(b)
    ensures a / 1000 == b / 1000
  {
    assert Some(Components(a)) == ParseTimeDiff(FormatTimeDiff(a)) == Some(Components(b));
    WholeSeconds(a);
    WholeSeconds(b);
  }

  lemma SameSecondSameText(a: nat, b: nat)
    requires a / 1000 == b / 1000
    ensures FormatTimeDiff(a) == FormatTimeDiff(b)
  {
    WholeSeconds(a);
    DivModSecond(b, b / 1000, b % 1000);
    ComponentsUnique(b, Components(a));
  }

  /** Two durations print alike exactly when they agree down to the second. */
  lemma FormatTimeDiffInjective(a: nat, b: nat)
    ensures FormatTimeDiff(a) == FormatTimeDiff(b) <==> a / 1000 == b / 1000
  {
    if FormatTimeDiff(a) == FormatTimeDiff(b) {
      SameTextSameSecond(a, b);
    }
    if a / 1000 == b / 1000 {
      SameSecondSameText(a, b);
    }
  }

  /** The shape of three fields joined by ':' when the last two have two characters each. */
  lemma JoinedShape(h: string, m: string, sec: string)
    requires |m| == 2 && |sec| == 2
    ensures |h + ":" + m + ":" + sec| == |h| + 6
    ensures (h + ":" + m + ":" + sec)[..|h|] == h
    ensures (h + ":" + m + ":" + sec)[|h|] == ':' && (h + ":" + m + ":" + sec)[|h| + 3] == ':'
  {
    var r := h + ":" + m + ":" + sec;
    assert r == h + ([':'] + m + [':'] + sec);
    assert |[':'] + m + [':'] + sec| == 6;
  }

  /**
   * The output for any normal reading: the hours field, however many digits it has,
   * then ':', two minute digits, ':' and two second digits.
   */
  lemma RenderShape(c: Clock)
    requires Normal(c)
    ensures |Render(c)| == |Field(c.hours)| + 6
    ensures Render(c)[..|Field(c.hours)|] == Field(c.hours)
    ensures Render(c)[|Field(c.hours)|] == ':' && Render(c)[|Field(c.hours)| + 3] == ':'
  {
    var h, m, sec := Field(c.hours), Field(c.minutes), Field(c.seconds);
    JoinedShape(h, m, sec);
  }

  /**
   * From ten hours on, the output begins with the plain numeral of the hours,
   * which are not wrapped at 24 and get no padding.
   */
  lemma FormatTimeDiffHours(timeDiff: nat)
    requires timeDiff >= 10 * MS_PER_HOUR
    ensures |FormatTimeDiff(timeDiff)| == |Text.DecimalString(timeDiff / MS_PER_HOUR)| + 6
    ensures FormatTimeDiff(timeDiff)[..|Text.DecimalString(timeDiff / MS_PER_HOUR)|]
         == Text.DecimalString(timeDiff / MS_PER_HOUR)
  {
    var c := Components(timeDiff);
    assert c.hours == timeDiff / MS_PER_HOUR;
    DivModHour(timeDiff, c.hours, timeDiff % 3600000);
    assert c.hours >= 10;
    RenderShape(c);
  }

  /** Below one hundred hours the output has the shape "HH:MM:SS", eight characters. */
  lemma FormatTimeDiffLength(timeDiff: nat)
    requires timeDiff < 100 * MS_PER_HOUR
    ensures |FormatTimeDiff(timeDiff)| == 8
    ensures FormatTimeDiff(timeDiff)[2] == ':' && FormatTimeDiff(timeDiff)[5] == ':'
  {
    var c := Components(timeDiff);
    DivModHour(timeDiff, c.hours, timeDiff % 3600000);
    assert c.hours < 100;
    RenderShape(c);
  }

  /**
   * `resolveResourceURL(url)`: a URL that already starts with "http" is kept,
   * anything else is taken as a path on the server and prefixed with the base URL.
   */
  function ResolveResourceURL(url: string): (r: string)
    ensures "http" <= url ==> r == url
    ensures !("http" <= url) ==> r == API_BASE_URL + url
    ensures "http" <= r
    ensures r[|r| - |url|..] == url
  {
    assert "http" <= API_BASE_URL;
    if "http" <= url then url else API_BASE_URL + url
  }

  /** Resolving a resolved URL changes nothing, because the base URL itself starts with "http". */
  lemma ResolveResourceURLIdempotent(url: string)
    ensures ResolveResourceURL(ResolveResourceURL(url)) == ResolveResourceURL(url)
  {
  }
}
