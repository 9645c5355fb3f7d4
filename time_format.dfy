/** The `mm:ss` label of the protection-mode screen: `formatTime` together with
    the two JavaScript string primitives it is built from (`Number.toString()`
    on a non-negative integer and `String.padStart`), and a reader that takes
    such a label back to a number of seconds. */
module TimeFormat {

  datatype Option<T> = None | Some(value: T)

  predicate IsDigit(c: char) {
    '0' <= c <= '9'
  }

  predicate AllDigits(s: string) {
    forall i :: 0 <= i < |s| ==> IsDigit(s[i])
  }

  function DigitValue(c: char): (d: nat)
    requires IsDigit(c)
    ensures d < 10
  {
    (c as int) - ('0' as int)
  }

  function DigitChar(d: nat): (c: char)
    requires d < 10
    ensures IsDigit(c) && DigitValue(c) == d
  {
    (('0' as int) + d) as char
  }

  /** The number written by a string of decimal digits, leading zeros allowed. */
  function FromDecimal(s: string): nat
    requires AllDigits(s)
  {
    if s == [] then 0 else FromDecimal(s[..|s| - 1]) * 10 + DigitValue(s[|s| - 1])
  }

  /** `n.toString()` for a non-negative integer `n`: its decimal digits, with no
      leading zero; one digit exactly below 10, at most two below 100. */
  function ToDecimal(n: nat): (s: string)
    ensures |s| >= 1 && AllDigits(s)
    ensures |s| == 1 <==> n < 10
    ensures n < 100 ==> |s| <= 2
    ensures |s| > 1 ==> s[0] != '0'
    decreases n
  {
    if n < 10 then [DigitChar(n)] else ToDecimal(n / 10) + [DigitChar(n % 10)]
  }

  /** FromDecimal reads `n.toString()` back as `n`. */
  lemma {:induction false} ToDecimalValue(n: nat)
    ensures FromDecimal(ToDecimal(n)) == n
  {
    if n >= 10 {
      ToDecimalValue(n / 10);
      var s := ToDecimal(n);
      assert s[..|s| - 1] == ToDecimal(n / 10);
    }
  }

  /** `k` copies of `c`. */
  function Repeat(c: char, k: nat): (r: string)
    ensures |r| == k
  {
    if k == 0 then [] else Repeat(c, k - 1) + [c]
  }

  /** `s.padStart(width, fill)` with a one-character pad string: `s` itself when
      it is already that wide, otherwise `s` behind enough copies of `fill`. */
  function PadStart(s: string, width: nat, fill: char): (r: string)
    ensures |r| == if |s| >= width then |s| else width
    ensures r == Repeat(fill, |r| - |s|) + s
  {
    if |s| >= width then s else Repeat(fill, width - |s|) + s
  }

  /** One field of the label: `n.toString().padStart(2, '0')`. */
  function Field(n: nat): string {
    PadStart(ToDecimal(n), 2, '0')
  }

  /** Two fields joined by ':'. */
  function Join(mm: string, ss: string): string {
    mm + ":" + ss
  }

  /** `formatTime(seconds)`: whole minutes and the remaining seconds, each
      written in decimal and padded to two characters with '0', joined by ':'.
      Minutes are not capped, so from 100 minutes on the minutes field grows. */
  function FormatTime(seconds: nat): string
  {
    var mins := seconds / 60;
    var secs := seconds % 60;
    Join(Field(mins), Field(secs))
  }

  /** The index of the last ':' in `t`, if there is one. */
  function ColonIndex(t: string): (r: Option<nat>)
    ensures r.Some? ==> r.value < |t| && t[r.value] == ':'
  {
    if t == [] then None
    else if t[|t| - 1] == ':' then Some(|t| - 1)
    else ColonIndex(t[..|t| - 1])
  }

  /** The value of a field of a label, if the field is all digits. */
  function ReadDigits(s: string): Option<nat> {
    if AllDigits(s) then Some(FromDecimal(s)) else None
  }

  /** Reads an `mm:ss` label: a non-empty run of digits, ':', and exactly two
      digits giving a value below 60. Anything else is not a label. */
  function ParseTime(t: string): Option<nat>
  {
    match ColonIndex(t)
    case None => None
    case Some(i) =>
      if i == 0 || i + 3 != |t| then None
      else match (ReadDigits(t[..i]), ReadDigits([t[i + 1], t[i + 2]]))
        case (Some(mins), Some(secs)) => if secs < 60 then Some(mins * 60 + secs) else None
        case _ => None
  }

  lemma {:induction false} FromDecimalOfZeros(k: nat)
    ensures AllDigits(Repeat('0', k)) && FromDecimal(Repeat('0', k)) == 0
  {
    if k > 0 {
      FromDecimalOfZeros(k - 1);
      assert Repeat('0', k)[..k - 1] == Repeat('0', k - 1);
    }
  }

  /** Leading zeros do not change the value of a digit string. */
  lemma {:induction false} FromDecimalIgnoresLeadingZeros(k: nat, d: string)
    requires AllDigits(d)
    ensures AllDigits(Repeat('0', k) + d) && FromDecimal(Repeat('0', k) + d) == FromDecimal(d)
  {
    var z := Repeat('0', k);
    FromDecimalOfZeros(k);
    if d == [] {
      assert z + d == z;
    } else {
      var zd := z + d;
      assert zd[..|zd| - 1] == z + d[..|d| - 1];
      assert zd[|zd| - 1] == d[|d| - 1];
      FromDecimalIgnoresLeadingZeros(k, d[..|d| - 1]);
    }
  }

  /** A decimal number padded with '0' still reads back as that number. */
  lemma PaddedValue(n: nat)
    ensures var p := Field(n);
      AllDigits(p) && FromDecimal(p) == n && |p| >= 2 && (n < 100 ==> |p| == 2)
  {
    var s := ToDecimal(n);
    ToDecimalValue(n);
    FromDecimalIgnoresLeadingZeros(|Field(n)| - |s|, s);
  }

  lemma {:induction false} ColonBeforeDigits(a: string, b: string)
    requires AllDigits(b)
    ensures ColonIndex(a + ":" + b) == Some(|a|)
  {
    if b != [] {
      var t := a + ":" + b;
      assert t[..|t| - 1] == a + ":" + b[..|b| - 1];
      ColonBeforeDigits(a, b[..|b| - 1]);
    }
  }

  /** Where the fields of a joined label sit, when the seconds field is two
      digits. */
  lemma JoinedFields(mm: string, ss: string)
    requires AllDigits(ss) && |ss| == 2
    ensures var t := Join(mm, ss);
      |t| == |mm| + 3 && t[|mm|] == ':' && ColonIndex(t) == Some(|mm|) &&
      t[..|mm|] == mm && t[|mm| + 1] == ss[0] && t[|mm| + 2] == ss[1]
  {
    ColonBeforeDigits(mm, ss);
    var t := Join(mm, ss);
    assert t[..|mm|] == mm;
  }

  /** The two-digit value written by `a` followed by `b`. */
  lemma TwoDigits(a: char, b: char)
    requires IsDigit(a) && IsDigit(b)
    ensures ReadDigits([a, b]) == Some(DigitValue(a) * 10 + DigitValue(b))
  {
    assert [a, b][..1] == [a];
    assert [a][..0] == [];
    assert FromDecimal([a]) == DigitValue(a);
    assert AllDigits([a, b]);
  }

  /** `t` is a label for `m` minutes and `sec` seconds: its last ':' is three
      characters from the end, the digits before it read as `m`, and the two
      digits after it read as `sec`. */
  predicate IsLabel(t: string, m: nat, sec: nat) {
    |t| >= 5 && ColonIndex(t) == Some(|t| - 3) &&
    ReadDigits(t[..|t| - 3]) == Some(m) &&
    IsDigit(t[|t| - 2]) && IsDigit(t[|t| - 1]) &&
    DigitValue(t[|t| - 2]) * 10 + DigitValue(t[|t| - 1]) == sec
  }

  /** The padded fields for `m` minutes and `sec` seconds, joined, form a label
      for them. */
  lemma LabelFields(m: nat, sec: nat)
    requires sec < 60
    ensures IsLabel(Join(Field(m), Field(sec)), m, sec)
  {
    PaddedValue(m);
    PaddedValue(sec);
    JoinIsLabel(Field(m), Field(sec), m, sec);
  }

  /** A digit field reading `m`, ':' and a two-digit field reading `sec` form
      a label for `m` minutes and `sec` seconds. */
  lemma JoinIsLabel(mm: string, ss: string, m: nat, sec: nat)
    requires AllDigits(mm) && |mm| >= 2 && FromDecimal(mm) == m
    requires AllDigits(ss) && |ss| == 2 && FromDecimal(ss) == sec
    ensures IsLabel(Join(mm, ss), m, sec)
  {
    JoinedFields(mm, ss);
    assert ss == [ss[0], ss[1]];
    TwoDigits(ss[0], ss[1]);
  }

  /** `formatTime(seconds)` is a label for `seconds / 60` minutes and
      `seconds % 60` seconds, and the seconds are below 60. */
  lemma FormatTimeFields(seconds: nat)
    ensures IsLabel(FormatTime(seconds), seconds / 60, seconds % 60) && seconds % 60 < 60
  {
    LabelFields(seconds / 60, seconds % 60);
  }

  /** Reading any label for `m` minutes and `sec < 60` seconds gives
      `m * 60 + sec`. */
  lemma ReadLabel(t: string, m: nat, sec: nat)
    requires IsLabel(t, m, sec) && sec < 60
    ensures ParseTime(t) == Some(m * 60 + sec)
  {
    TwoDigits(t[|t| - 2], t[|t| - 1]);
  }

  /** Round trip: reading a formatted label gives back the seconds it shows. */
  lemma FormatTimeRoundTrip(seconds: nat)
    ensures ParseTime(FormatTime(seconds)) == Some(seconds)
  {
    FormatTimeFields(seconds);
    ReadLabel(FormatTime(seconds), seconds / 60, seconds % 60);
    assert seconds / 60 * 60 + seconds % 60 == seconds;
  }

  /** Two two-digit fields joined by ':' make five characters with ':' in the
      middle. */
  lemma ShortJoin(mm: string, ss: string)
    requires AllDigits(mm) && |mm| == 2 && AllDigits(ss) && |ss| == 2
    ensures var t := Join(mm, ss);
      |t| == 5 && t[2] == ':' && AllDigits(t[..2]) && IsDigit(t[3]) && IsDigit(t[4])
  {
    JoinedFields(mm, ss);
  }

  /** Below 100 minutes the label is exactly `mm:ss`: five characters, ':' at
      index 2 and digits everywhere else. */
  lemma FormatTimeShape(seconds: nat)
    requires seconds < 6000
    ensures var t := FormatTime(seconds);
      |t| == 5 && t[2] == ':' && AllDigits(t[..2]) && IsDigit(t[3]) && IsDigit(t[4])
  {
    PaddedValue(seconds / 60);
    PaddedValue(seconds % 60);
    ShortJoin(Field(seconds / 60), Field(seconds % 60));
  }
}
