// `YYYYMMDDTHHMMSSZ` (basic format, section 4.3.2 of ISO 8601:2004) and the names conflict
// copies get (src/reconcile/conflict.rs).
module Timestamps {
  import opened Calendar
  import opened Paths

  function Digit(n: int): char
    requires 0 <= n <= 9
  {
    ('0' as int + n) as char
  }

  // Zero-padded decimal of at least w digits.
  function Pad(n: nat, w: nat): (s: string)
    ensures |s| >= w
    decreases n, w
  {
    if n == 0 && w == 0 then ""
    else Pad(n / 10, if w == 0 then 0 else w - 1) + [Digit(n % 10)]
  }

  // `{:04}` counts the sign of a negative year as part of the width.
  function PadYear(y: int): string {
    if y < 0 then "-" + Pad(-y, 3) else Pad(y, 4)
  }

  function DatePart(t: Date): string
    requires 1 <= t.month && 1 <= t.day
  {
    PadYear(t.year) + (Pad(t.month, 2) + Pad(t.day, 2))
  }

  function TimePart(sod: int): string
    requires 0 <= sod < 86400
  {
    Pad(sod / 3600, 2) + (Pad((sod / 60) % 60, 2) + Pad(sod % 60, 2))
  }

  function FormatIso(secs: int): string {
    DatePart(CivilFromDays(secs / 86400)) + ("T" + (TimePart(secs % 86400) + "Z"))
  }

  // Byte order of equally long strings.
  ghost predicate Less(a: string, b: string) {
    exists k :: 0 <= k < |a| && k < |b| && a[..k] == b[..k] && a[k] < b[k]
  }

  lemma LessInFront(a: string, b: string, x: string, y: string)
    requires |a| == |b| && Less(a, b)
    ensures Less(a + x, b + y)
  {
    var k :| 0 <= k < |a| && k < |b| && a[..k] == b[..k] && a[k] < b[k];
    assert (a + x)[..k] == a[..k] && (b + y)[..k] == b[..k];
    assert (a + x)[k] < (b + y)[k];
  }

  lemma LessBehind(a: string, x: string, y: string)
    requires Less(x, y)
    ensures Less(a + x, a + y)
  {
    var k :| 0 <= k < |x| && k < |y| && x[..k] == y[..k] && x[k] < y[k];
    assert (a + x)[..|a| + k] == a + x[..k] == a + y[..k] == (a + y)[..|a| + k];
    assert (a + x)[|a| + k] < (a + y)[|a| + k];
  }

  function Pow10(w: nat): nat { if w == 0 then 1 else 10 * Pow10(w - 1) }

  lemma {:induction false} PadLength(n: nat, w: nat)
    requires n < Pow10(w)
    ensures |Pad(n, w)| == w
  {
    if w > 0 { PadLength(n / 10, w - 1); }
  }

  lemma {:induction false} PadOrder(a: nat, b: nat, w: nat)
    requires a < b < Pow10(w)
    ensures Less(Pad(a, w), Pad(b, w))
    decreases w
  {
    PadLength(a / 10, w - 1);
    PadLength(b / 10, w - 1);
    var da, db := [Digit(a % 10)], [Digit(b % 10)];
    if a / 10 < b / 10 {
      PadOrder(a / 10, b / 10, w - 1);
      LessInFront(Pad(a / 10, w - 1), Pad(b / 10, w - 1), da, db);
    } else {
      assert a / 10 == b / 10 && a % 10 < b % 10;
      assert da[..0] == db[..0] && da[0] < db[0];
      LessBehind(Pad(a / 10, w - 1), da, db);
    }
  }

  // Dates in calendar order.
  predicate DateLess(s: Date, t: Date) {
    s.year < t.year || (s.year == t.year && (s.month < t.month || (s.month == t.month && s.day < t.day)))
  }

  lemma {:induction false} MonthsAreMonotone(y: int, m: int, n: int)
    requires 1 <= m <= n <= 12
    ensures DaysBeforeMonth(y, m) + (if m < n then DaysInMonth(y, m) else 0) <= DaysBeforeMonth(y, n)
    ensures DaysBeforeMonth(y, m) + DaysInMonth(y, m) <= DaysInYear(y)
  {
    MonthsInClosedForm(y, m);
    MonthsInClosedForm(y, n);
  }

  lemma {:induction false} YearsAreMonotone(y: int, z: int)
    requires y <= z
    ensures DaysBeforeYear(y) <= DaysBeforeYear(z)
    ensures DaysBeforeYear(y + 1) == DaysBeforeYear(y) + DaysInYear(y)
    decreases z - y
  {
    YearsInClosedForm(y);
    YearsInClosedForm(y + 1);
    LeapsStep(y);
    if y < z { YearsAreMonotone(y + 1, z); }
  }

  // Earlier dates have smaller day numbers.
  lemma {:induction false} DayNumberIsMonotone(s: Date, t: Date)
    requires ValidDate(s) && ValidDate(t) && DateLess(s, t)
    ensures DayNumber(s) < DayNumber(t)
  {
    MonthsAreMonotone(s.year, s.month, s.month);
    if s.year == t.year {
      MonthsAreMonotone(s.year, s.month, t.month);
    } else {
      YearsAreMonotone(s.year, s.year);
      YearsAreMonotone(s.year + 1, t.year);
      MonthsAreMonotone(t.year, 1, t.month);
    }
  }

  predicate FourDigitYear(secs: int) {
    0 <= CivilFromDays(secs / 86400).year <= 9999 && YearFits(secs / 86400)
  }

  lemma PowersOfTen()
    ensures Pow10(2) == 100 && Pow10(4) == 10000
  {
    assert Pow10(0) == 1 && Pow10(1) == 10;
    assert Pow10(3) == 1000;
  }

  lemma PartLengths(t: Date, sod: int)
    requires ValidDate(t) && 0 <= t.year <= 9999 && 0 <= sod < 86400
    ensures |DatePart(t)| == 8 && |TimePart(sod)| == 6
  {
    PowersOfTen();
    PadLength(t.year, 4);
    PadLength(t.month, 2);
    PadLength(t.day, 2);
    PadLength(sod / 3600, 2);
    PadLength((sod / 60) % 60, 2);
    PadLength(sod % 60, 2);
  }

  lemma {:induction false} FieldDecides(a: nat, b: nat, w: nat, x: string, y: string)
    requires a < b < Pow10(w)
    ensures Less(Pad(a, w) + x, Pad(b, w) + y)
  {
    PadLength(a, w);
    PadLength(b, w);
    PadOrder(a, b, w);
    LessInFront(Pad(a, w), Pad(b, w), x, y);
  }

  lemma {:induction false} DatePartOrder(s: Date, t: Date)
    requires ValidDate(s) && ValidDate(t) && 0 <= s.year <= 9999 && 0 <= t.year <= 9999 && DateLess(s, t)
    ensures Less(DatePart(s), DatePart(t))
  {
    PowersOfTen();
    ThreeFields(s.year, s.month, s.day, t.year, t.month, t.day, 4, 2);
  }

  lemma ClockFields(s: int)
    requires 0 <= s < 86400
    ensures var h, m, c := s / 3600, (s / 60) % 60, s % 60;
      0 <= h < 24 && 0 <= m < 60 && 0 <= c < 60 && s == 3600 * h + 60 * m + c
  {
    assert s / 60 == 60 * (s / 3600) + (s / 60) % 60;
  }

  lemma {:induction false} TimePartOrder(s: int, t: int)
    requires 0 <= s < t < 86400
    ensures Less(TimePart(s), TimePart(t))
  {
    hide Pad, Less, Pow10;
    PowersOfTen();
    ClockFields(s);
    ClockFields(t);
    assert s / 3600 <= t / 3600;
    ThreeFields(s / 3600, (s / 60) % 60, s % 60, t / 3600, (t / 60) % 60, t % 60, 2, 2);
  }

  lemma {:induction false} ThreeFields(a: nat, b: nat, c: nat, a': nat, b': nat, c': nat, w: nat, v: nat)
    requires a < Pow10(w) && b < Pow10(v) && c < Pow10(v) && a' < Pow10(w) && b' < Pow10(v) && c' < Pow10(v)
    requires a < a' || (a == a' && (b < b' || (b == b' && c < c')))
    ensures Less(Pad(a, w) + (Pad(b, v) + Pad(c, v)), Pad(a', w) + (Pad(b', v) + Pad(c', v)))
  {
    hide *;
    if a < a' {
      FieldDecides(a, a', w, Pad(b, v) + Pad(c, v), Pad(b', v) + Pad(c', v));
    } else {
      if b < b' {
        FieldDecides(b, b', v, Pad(c, v), Pad(c', v));
      } else {
        PadOrder(c, c', v);
        LessBehind(Pad(b, v), Pad(c, v), Pad(c', v));
      }
      LessBehind(Pad(a, w), Pad(b, v) + Pad(c, v), Pad(b', v) + Pad(c', v));
    }
  }

  lemma FormatLength(secs: int)
    requires FourDigitYear(secs)
    ensures |FormatIso(secs)| == 16
  {
    hide YearFits, CivilFromDays;
    CivilInverse(secs / 86400);
    PartLengths(CivilFromDays(secs / 86400), secs % 86400);
  }

  // A decimal numeral, read back.
  predicate IsDigit(c: char) { '0' <= c <= '9' }

  function Value(s: string): nat
    requires forall c :: c in s ==> IsDigit(c)
  {
    if s == "" then 0
    else
      var last := s[|s| - 1];
      assert last in s && IsDigit(last);
      10 * Value(s[..|s| - 1]) + (last as int - 48)
  }

  predicate Numeral(s: string) { forall c :: c in s ==> IsDigit(c) }

  lemma {:induction false} PadValue(n: nat, w: nat)
    requires n < Pow10(w)
    ensures |Pad(n, w)| == w && Numeral(Pad(n, w)) && Value(Pad(n, w)) == n
    decreases w
  {
    if w > 0 {
      PadValue(n / 10, w - 1);
      var s := Pad(n, w);
      assert s == Pad(n / 10, w - 1) + [Digit(n % 10)];
      assert s[..|s| - 1] == Pad(n / 10, w - 1);
    }
  }

  // What a stamp says: a date, `T`, a time of day, `Z`.
  predicate IsStamp(s: string) {
    |s| == 16 && Numeral(s[..8]) && s[8] == 'T' && Numeral(s[9..15]) && s[15] == 'Z'
  }

  ghost function StampDate(s: string): Date
    requires IsStamp(s)
  {
    assert forall c :: c in s[..4] || c in s[4..6] || c in s[6..8] ==> c in s[..8];
    Date(Value(s[..4]), Value(s[4..6]), Value(s[6..8]))
  }

  ghost function StampClock(s: string): nat
    requires IsStamp(s)
  {
    assert forall c :: c in s[9..11] || c in s[11..13] || c in s[13..15] ==> c in s[9..15];
    3600 * Value(s[9..11]) + 60 * Value(s[11..13]) + Value(s[13..15])
  }

  lemma StampParts(y: string, m: string, d: string, h: string, n: string, c: string)
    requires |y| == 4 && |m| == |d| == |h| == |n| == |c| == 2
    requires Numeral(y) && Numeral(m) && Numeral(d) && Numeral(h) && Numeral(n) && Numeral(c)
    ensures var s := y + (m + d) + ("T" + (h + (n + c) + "Z"));
      && IsStamp(s) && s[..4] == y && s[4..6] == m && s[6..8] == d && s[9..11] == h && s[11..13] == n && s[13..15] == c
  {
    var s := y + (m + d) + ("T" + (h + (n + c) + "Z"));
    assert s[..8] == y + (m + d) && s[9..15] == h + (n + c);
  }

  // The stamp read back is the instant it was made from.
  lemma FormatReadsBack(secs: int)
    requires FourDigitYear(secs)
    ensures var s := FormatIso(secs);
      IsStamp(s) && ValidDate(StampDate(s)) && 86400 * DayNumber(StampDate(s)) + StampClock(s) == secs
  {
    hide YearFits, CivilFromDays, Pad, Value, Numeral, DayNumber, IsStamp;
    var t, sod := CivilFromDays(secs / 86400), secs % 86400;
    CivilInverse(secs / 86400);
    PowersOfTen();
    ClockFields(sod);
    PadValue(t.year, 4);
    PadValue(t.month, 2);
    PadValue(t.day, 2);
    PadValue(sod / 3600, 2);
    PadValue((sod / 60) % 60, 2);
    PadValue(sod % 60, 2);
    StampParts(Pad(t.year, 4), Pad(t.month, 2), Pad(t.day, 2), Pad(sod / 3600, 2), Pad((sod / 60) % 60, 2),
      Pad(sod % 60, 2));
  }

  // Sorting the stamps sorts the instants.
  lemma FormatKeepsOrder(s: int, t: int)
    requires FourDigitYear(s) && FourDigitYear(t) && s < t
    ensures Less(FormatIso(s), FormatIso(t))
  {
    hide CivilFromDays, DatePart, TimePart, DayNumber, ValidDate, Less, YearFits;
    var a, b := CivilFromDays(s / 86400), CivilFromDays(t / 86400);
    var x, y := TimePart(s % 86400), TimePart(t % 86400);
    CivilInverse(s / 86400);
    CivilInverse(t / 86400);
    if s / 86400 == t / 86400 {
      TimePartOrder(s % 86400, t % 86400);
      PartLengths(a, s % 86400);
      PartLengths(a, t % 86400);
      LessInFront(x, y, "Z", "Z");
      LessBehind("T", x + "Z", y + "Z");
      LessBehind(DatePart(a), "T" + (x + "Z"), "T" + (y + "Z"));
    } else {
      LaterDay(a, b);
      PartLengths(a, s % 86400);
      PartLengths(b, t % 86400);
      DatePartOrder(a, b);
      LessInFront(DatePart(a), DatePart(b), "T" + (x + "Z"), "T" + (y + "Z"));
    }
  }

  lemma LaterDay(a: Date, b: Date)
    requires ValidDate(a) && ValidDate(b) && DayNumber(a) < DayNumber(b)
    ensures DateLess(a, b)
  {
    if DateLess(b, a) { DayNumberIsMonotone(b, a); }
  }

  lemma FormatIsInjective(s: int, t: int)
    requires FourDigitYear(s) && FourDigitYear(t) && FormatIso(s) == FormatIso(t)
    ensures s == t
  {
    hide *;
    if s < t { FormatKeepsOrder(s, t); NotLessThanSelf(FormatIso(s)); }
    if t < s { FormatKeepsOrder(t, s); NotLessThanSelf(FormatIso(s)); }
  }

  lemma NotLessThanSelf(a: string)
    ensures !Less(a, a)
  {
  }

  // `rsplit_once('.')`: the index of the last dot, or -1.
  function LastDot(s: string): (k: int)
    ensures -1 <= k < |s|
    ensures k >= 0 ==> s[k] == '.'
    ensures forall i :: k < i < |s| ==> s[i] != '.'
  {
    if s == "" then -1
    else if s[|s| - 1] == '.' then |s| - 1
    else LastDot(s[..|s| - 1])
  }

  function Tag(ts: string): string { ".conflict-" + ts }

  // The tag goes before the extension; a name without one, or a dotfile, gets it at the end.
  function ConflictName(name: string, ts: string): string {
    var k := LastDot(name);
    if k > 0 then name[..k] + (Tag(ts) + name[k..]) else name + Tag(ts)
  }

  function ConflictPath(path: string, now: int): string {
    Join(ParentDir(path), ConflictName(FileName(path), FormatIso(now)))
  }

  // `report.txt` becomes `report.conflict-STAMP.txt`; a name without a dot, or with one only in front,
  // gets the tag at its end.
  lemma ConflictNameForms(stem: string, ext: string, ts: string)
    requires stem != "" && '.' !in ext
    ensures ConflictName(stem + "." + ext, ts) == stem + ".conflict-" + ts + "." + ext
    ensures '.' !in stem ==> ConflictName(stem, ts) == stem + ".conflict-" + ts
    ensures ConflictName("." + ext, ts) == "." + ext + ".conflict-" + ts
  {
    var name, dotted := stem + "." + ext, "." + ext;
    assert name[|stem|..] == dotted && name[..|stem|] == stem;
    assert forall i :: |stem| < i < |name| ==> name[i] == ext[i - |stem| - 1];
    LastDotIs(name, |stem|);
    assert forall i :: 0 < i < |dotted| ==> dotted[i] == ext[i - 1];
    LastDotIs(dotted, 0);
    assert stem + (".conflict-" + ts + ("." + ext)) == stem + ".conflict-" + ts + "." + ext;
  }

  lemma LastDotIs(s: string, k: nat)
    requires k < |s| && s[k] == '.' && forall i :: k < i < |s| ==> s[i] != '.'
    ensures LastDot(s) == k
  {
  }

  // Where the last dot of a conflict name sits tells the two forms apart.
  lemma {:induction false} DotOfConflictName(name: string, ts: string)
    requires name != "" && '.' !in ts
    ensures var g, k := ConflictName(name, ts), LastDot(name);
      && |g| == |name| + 10 + |ts|
      && LastDot(g) == (if k > 0 then k + 10 + |ts| else |name|)
      && g[..LastDot(g)] == (if k > 0 then name[..k] + Tag(ts) else name)
      && g[LastDot(g)..] == (if k > 0 then name[k..] else Tag(ts))
  {
    var g, k, tag := ConflictName(name, ts), LastDot(name), Tag(ts);
    if k > 0 {
      var j := k + 10 + |ts|;
      assert g == name[..k] + tag + name[k..];
      assert g[j..] == name[k..] && g[..j] == name[..k] + tag;
      assert forall i :: j <= i < |g| ==> g[i] == g[j..][i - j];
      LastDotIs(g, j);
    } else {
      assert g[|name|..] == tag && g[..|name|] == name;
      forall i | |name| < i < |g| ensures g[i] != '.' {
        assert g[i] == tag[i - |name|];
      }
      LastDotIs(g, |name|);
    }
  }

  lemma {:induction false} TagInjective(a: string, b: string, ts: string, us: string)
    requires |ts| == |us| && a + Tag(ts) == b + Tag(us)
    ensures a == b && ts == us
  {
    assert |a| == |b|;
    assert a == (a + Tag(ts))[..|a|] == (b + Tag(us))[..|b|] == b;
    assert Tag(ts) == (a + Tag(ts))[|a|..] == (b + Tag(us))[|b|..] == Tag(us);
    assert ts == Tag(ts)[10..] == Tag(us)[10..] == us;
  }

  // A conflict name determines the file and the stamp it was made from.
  lemma {:induction false} ConflictNameInjective(f: string, g: string, ts: string, us: string)
    requires f != "" && g != "" && '.' !in ts && '.' !in us && |ts| == |us|
    requires ConflictName(f, ts) == ConflictName(g, us)
    ensures f == g && ts == us
  {
    hide ConflictName, LastDot, Tag;
    DotOfConflictName(f, ts);
    DotOfConflictName(g, us);
    var j, k := LastDot(f), LastDot(g);
    if j > 0 { TaggedHasDot(f[..j], ts); }
    if k > 0 { TaggedHasDot(g[..k], us); }
    if j > 0 && k > 0 {
      TagInjective(f[..j], g[..k], ts, us);
      assert f == f[..j] + f[j..] && g == g[..k] + g[k..];
    } else if j <= 0 && k <= 0 {
      assert Tag(ts) == Tag(us);
      assert "" + Tag(ts) == "" + Tag(us);
      TagInjective("", "", ts, us);
    }
  }

  lemma TaggedHasDot(a: string, ts: string)
    requires a != ""
    ensures LastDot(a + Tag(ts)) > 0
  {
    hide LastDot;
    assert (a + Tag(ts))[|a|] == '.';
  }

  lemma {:induction false} PadIsPlain(n: nat, w: nat)
    ensures '.' !in Pad(n, w) && '/' !in Pad(n, w)
    decreases n, w
  {
    if !(n == 0 && w == 0) {
      PadIsPlain(n / 10, if w == 0 then 0 else w - 1);
    }
  }

  lemma {:induction false} StampIsPlain(secs: int)
    ensures '.' !in FormatIso(secs) && '/' !in FormatIso(secs)
  {
    hide CivilFromDays, Pad;
    var t, sod := CivilFromDays(secs / 86400), secs % 86400;
    PadIsPlain(if t.year < 0 then -t.year else t.year, if t.year < 0 then 3 else 4);
    PadIsPlain(t.month, 2);
    PadIsPlain(t.day, 2);
    PadIsPlain(sod / 3600, 2);
    PadIsPlain((sod / 60) % 60, 2);
    PadIsPlain(sod % 60, 2);
  }

  // The conflict copy stays in the directory of the original, under a longer name.
  lemma {:induction false} ConflictPathIsSibling(path: string, now: int)
    requires WellNamed(path)
    ensures var aside := ConflictPath(path, now);
      && ParentDir(aside) == ParentDir(path) && FileName(aside) == ConflictName(FileName(path), FormatIso(now))
      && WellNamed(aside) && |aside| > |path| && Incomparable(path, aside)
  {
    hide ParentDir, FileName, FormatIso, ConflictName, Below, Join;
    var name, dir := FileName(path), ParentDir(path);
    var aside := ConflictPath(path, now);
    StampIsPlain(now);
    ConflictNameGrows(name, FormatIso(now));
    JoinParts(dir, ConflictName(name, FormatIso(now)));
    JoinGrows(dir, name, ConflictName(name, FormatIso(now)));
    LongerSibling(path, aside);
  }

  lemma ConflictNameGrows(name: string, ts: string)
    requires '/' !in name && '/' !in ts
    ensures '/' !in ConflictName(name, ts) && |ConflictName(name, ts)| > |name|
  {
    hide LastDot;
  }

  lemma JoinGrows(dir: string, name: string, longer: string)
    requires |longer| > |name|
    ensures |Join(dir, longer)| > |Join(dir, name)|
  {
  }

  lemma LongerSibling(p: string, q: string)
    requires |q| > |p| > 0 && ParentDir(q) == ParentDir(p)
    ensures Incomparable(p, q)
  {
    hide ParentDir;
    if Below(q, p) { ParentStaysWithin(q, p); }
  }

  // In the years 0000 to 9999 two conflict copies in one directory share a name only if they come
  // from the same file in the same second, and the name is never the original one.
  lemma {:induction false} ConflictCopiesAreDistinct(f: string, g: string, s: int, t: int)
    requires f != "" && g != "" && FourDigitYear(s) && FourDigitYear(t)
    ensures ConflictName(f, FormatIso(s)) == ConflictName(g, FormatIso(t)) <==> f == g && s == t
    ensures ConflictName(f, FormatIso(s)) != f
  {
    hide FormatIso, ConflictName, LastDot, FourDigitYear;
    StampIsPlain(s);
    StampIsPlain(t);
    FormatLength(s);
    FormatLength(t);
    DotOfConflictName(f, FormatIso(s));
    if ConflictName(f, FormatIso(s)) == ConflictName(g, FormatIso(t)) {
      ConflictNameInjective(f, g, FormatIso(s), FormatIso(t));
      FormatIsInjective(s, t);
    }
  }
}
