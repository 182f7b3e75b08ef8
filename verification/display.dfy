/**
 * The arithmetic of the live readout ("A: MM:SS" / "B: MM:SS") that the
 * clock shows once per cycle. Drawing on the OLED panel is not part of this
 * module; only the split of a second count into minutes and seconds and the
 * characters that `%02d:%02d` produces are modelled.
 */
module Display {

  /** Minutes and seconds of `t` seconds, with C's `/` and `%` on `int`:
      the quotient truncates toward zero and the remainder takes the sign
      of the dividend. */
  function Split(t: int): (r: (int, int))
    ensures r.0 * 60 + r.1 == t
    ensures -60 < r.1 < 60
    ensures t >= 0 ==> r.0 >= 0 && r.1 >= 0
    ensures t <= 0 ==> r.0 <= 0 && r.1 <= 0
  {
    if t >= 0 then (t / 60, t % 60) else (-((-t) / 60), -((-t) % 60))
  }

  /** For a non-negative count the split is the only pair with a
      remainder in [0, 60) that recombines to `t`. */
  lemma SplitUnique(t: int, m: int, s: int)
    requires t >= 0 && 0 <= s < 60 && m * 60 + s == t
    ensures Split(t) == (m, s)
  {
  }

  /** Every value a timer can hold splits into at most 10 minutes and a
      seconds field below 60. */
  lemma SplitOfTimer(t: int)
    requires 0 <= t <= 600
    ensures 0 <= Split(t).0 <= 10 && 0 <= Split(t).1 < 60
  {
  }

  predicate IsDigit(c: char)
  {
    '0' <= c <= '9'
  }

  function DigitValue(c: char): int
  {
    c as int - '0' as int
  }

  function DigitChar(d: int): (c: char)
    requires 0 <= d <= 9
    ensures IsDigit(c) && DigitValue(c) == d
  {
    ('0' as int + d) as char
  }

  /** What `%02d` prints for a value below 100: exactly two digits, with a
      leading zero when needed. */
  function TwoDigits(n: int): (r: string)
    requires 0 <= n <= 99
    ensures |r| == 2 && IsDigit(r[0]) && IsDigit(r[1])
    ensures DigitValue(r[0]) * 10 + DigitValue(r[1]) == n
  {
    [DigitChar(n / 10), DigitChar(n % 10)]
  }

  /** The second count that a well-formed readout line shows. */
  function ShownSeconds(line: string): int
    requires |line| == 8
  {
    (DigitValue(line[3]) * 10 + DigitValue(line[4])) * 60
      + DigitValue(line[6]) * 10 + DigitValue(line[7])
  }

  /** The text `sprintf(buf, "<tag>: %02d:%02d", t / 60, t % 60)` writes.
      Below 6000 seconds both fields have two digits, so the line has 8
      characters and, with its terminating NUL, fits the 10-byte buffer; the
      minutes field shows `t / 60`, the seconds field `t % 60`, and the line
      reads back as `t`. */
  function Readout(tag: char, t: int): (r: string)
    requires 0 <= t < 6000
    ensures |r| == 8 && |r| + 1 <= 10
    ensures r[0] == tag && r[1] == ':' && r[2] == ' ' && r[5] == ':'
    ensures IsDigit(r[3]) && IsDigit(r[4]) && IsDigit(r[6]) && IsDigit(r[7])
    ensures DigitValue(r[3]) * 10 + DigitValue(r[4]) == Split(t).0
    ensures DigitValue(r[6]) * 10 + DigitValue(r[7]) == Split(t).1
    ensures ShownSeconds(r) == t
  {
    var (m, s) := Split(t);
    [tag, ':', ' '] + TwoDigits(m) + [':'] + TwoDigits(s)
  }

  /** Two readouts with the same tag are equal exactly when they show the
      same time: the line loses no information. */
  lemma ReadoutInjective(tag: char, t: int, u: int)
    requires 0 <= t < 6000 && 0 <= u < 6000
    ensures Readout(tag, t) == Readout(tag, u) <==> t == u
  {
  }
}
