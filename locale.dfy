/**
 * The locale helpers of src/composables/useI18n.ts: the locale switch and its config
 * lookup, and the pure formatting rules (minutes, relative time buckets, the currency
 * choice, the fallbacks of the enum translators and the option lists of the select boxes).
 *
 * The translator `t` is a parameter; rendering through `Intl` is not modelled, so what
 * `formatDate` would print is a parameter too. Case mapping is ASCII only.
 */
module Locale {
  import opened Wrappers

  // ------------------------------------------------------------ locales

  datatype LocaleConfig = LocaleConfig(code: string, name: string, nativeName: string)

  const KO: string := "ko"
  const EN: string := "en"

  const SUPPORTED_LOCALES: seq<LocaleConfig> :=
    [LocaleConfig(KO, "Korean", "\U{d55c}\U{ad6d}\U{c5b4}"), LocaleConfig(EN, "English", "English")]

  /** The type `SupportedLocale`. */
  predicate IsSupported(locale: string) {
    locale == KO || locale == EN
  }

  /** `Array.prototype.find` on the code: the first config with this code. */
  function FindByCode(configs: seq<LocaleConfig>, code: string): (r: Option<LocaleConfig>)
    ensures r.None? <==> forall i :: 0 <= i < |configs| ==> configs[i].code != code
    ensures r.Some? ==> exists i :: (0 <= i < |configs| && configs[i] == r.value && configs[i].code == code
      && forall j :: 0 <= j < i ==> configs[j].code != code)
  {
    if configs == [] then None
    else if configs[0].code == code then Some(configs[0])
    else
      var r := FindByCode(configs[1..], code);
      if r.Some? then
        ghost var i :| (0 <= i < |configs[1..]| && configs[1..][i] == r.value && configs[1..][i].code == code
          && forall j :: 0 <= j < i ==> configs[1..][j].code != code);
        assert configs[i + 1] == r.value && forall j :: 0 <= j < i + 1 ==> configs[j].code != code;
        r
      else r
  }

  /** `currentLocaleConfig`: the config of the current locale, or Korean when the locale is
      one the list does not have. */
  function CurrentLocaleConfig(locale: string): (c: LocaleConfig)
    ensures c in SUPPORTED_LOCALES
    ensures IsSupported(locale) ==> c.code == locale
    ensures !IsSupported(locale) ==> c == SUPPORTED_LOCALES[0]
  {
    assert SUPPORTED_LOCALES[0].code == KO && SUPPORTED_LOCALES[1].code == EN;
    FindByCode(SUPPORTED_LOCALES, locale).GetOr(SUPPORTED_LOCALES[0])
  }

  /** The locale `toggleLocale` switches to: English from Korean, Korean from anything else. */
  function Toggled(locale: string): (r: string)
    ensures r == EN <==> locale == KO
    ensures r == KO <==> locale != KO
  {
    if locale == KO then EN else KO
  }

  /** Toggling twice comes back to a supported locale; from any other locale it lands on
      English. */
  lemma ToggleTwice(locale: string)
    ensures IsSupported(locale) ==> Toggled(Toggled(locale)) == locale
    ensures !IsSupported(locale) ==> Toggled(locale) == KO && Toggled(Toggled(locale)) == EN
  {
  }

  /** The shared `locale` ref behind `useLocale`. */
  class LocaleState {
    var locale: string

    constructor(initial: string)
      ensures locale == initial
    {
      locale := initial;
    }

    /** `setLocale`; the writes to storage and to the document are not modelled. */
    method SetLocale(newLocale: string)
      requires IsSupported(newLocale)
      modifies this
      ensures locale == newLocale
    {
      locale := newLocale;
    }

    /** `toggleLocale`. */
    method ToggleLocale()
      modifies this
      ensures locale == Toggled(old(locale))
      ensures IsSupported(locale)
    {
      SetLocale(Toggled(locale));
    }
  }

  // ------------------------------------------------------------ numbers as text

  predicate IsDigit(c: char) {
    '0' <= c <= '9'
  }

  function DigitChar(d: nat): (c: char)
    requires d < 10
    ensures IsDigit(c) && c as int - '0' as int == d
  {
    ('0' as int + d) as char
  }

  /** Decimal digits of `n` without leading zeros, as a template literal prints it. */
  function NatToString(n: nat): (s: string)
    ensures |s| > 0 && forall i :: 0 <= i < |s| ==> IsDigit(s[i])
  {
    if n < 10 then [DigitChar(n)] else NatToString(n / 10) + [DigitChar(n % 10)]
  }

  /** A template literal's rendering of an integer. */
  function IntToString(i: int): (s: string)
    ensures |s| > 0
    ensures i >= 0 ==> s == NatToString(i)
  {
    if i < 0 then "-" + NatToString(-i) else NatToString(i)
  }

  function DigitValue(c: char): nat
    requires IsDigit(c)
  {
    c as int - '0' as int
  }

  /** The value of a string of digits. */
  function DigitsValue(s: string): nat
    requires forall i :: 0 <= i < |s| ==> IsDigit(s[i])
  {
    if s == [] then 0 else DigitsValue(s[..|s| - 1]) * 10 + DigitValue(s[|s| - 1])
  }

  lemma {:induction false} DigitsValueOfNat(n: nat)
    ensures DigitsValue(NatToString(n)) == n
  {
    var s := NatToString(n);
    if n >= 10 {
      assert s[..|s| - 1] == NatToString(n / 10);
      DigitsValueOfNat(n / 10);
    }
  }

  /** The length of the run of digits `s` starts with. */
  function DigitRun(s: string): (k: nat)
    ensures k <= |s|
    ensures forall i :: 0 <= i < k ==> IsDigit(s[i])
    ensures k < |s| ==> !IsDigit(s[k])
  {
    if s == [] || !IsDigit(s[0]) then 0 else 1 + DigitRun(s[1..])
  }

  lemma {:induction false} DigitRunOf(d: string, t: string)
    requires forall i :: 0 <= i < |d| ==> IsDigit(d[i])
    requires t == [] || !IsDigit(t[0])
    ensures DigitRun(d + t) == |d|
  {
    if d != [] {
      assert (d + t)[1..] == d[1..] + t;
      DigitRunOf(d[1..], t);
    }
  }

  // ------------------------------------------------------------ formatMinutes

  /** The unit words of a locale: `h`/`m`, or the Korean words for hour and minute. */
  datatype Units = Units(hour: string, minute: string)

  function UnitsFor(locale: string): (u: Units)
    ensures u.hour != u.minute && |u.hour| > 0 && |u.minute| > 0
    ensures !IsDigit(u.hour[0]) && !IsDigit(u.minute[0])
  {
    if locale == KO then Units("\U{c2dc}\U{ac04}", "\U{bd84}") else Units("h", "m")
  }

  /** `minutes % 60`: the JavaScript remainder has the sign of the dividend. */
  function JsRem(a: int, b: int): (r: int)
    requires b > 0
    ensures a >= 0 ==> r == a % b
    ensures a < 0 ==> -b < r <= 0
    ensures exists q: int :: a == q * b + r
  {
    if a >= 0 then
      assert a == (a / b) * b + a % b;
      a % b
    else
      assert a == -((-a) / b) * b + -((-a) % b);
      -((-a) % b)
  }

  /** `formatMinutes`: '-' for a missing value; otherwise hours (`Math.floor(m / 60)`) and
      minutes (`m % 60`), each shown only when positive, minutes shown when hours are not. */
  function FormatMinutes(minutes: Option<int>, locale: string): (r: string)
    ensures minutes.None? ==> r == "-"
  {
    match minutes
    case None => "-"
    case Some(m) =>
      var hours := m / 60;
      var mins := JsRem(m, 60);
      var u := UnitsFor(locale);
      if hours > 0 then
        if mins > 0 then IntToString(hours) + u.hour + " " + IntToString(mins) + u.minute
        else IntToString(hours) + u.hour
      else IntToString(mins) + u.minute
  }

  /** Reads back a duration printed in the units `u`. */
  function ParseMinutes(s: string, u: Units): Option<nat> {
    var k := DigitRun(s);
    if k == 0 then None else AfterCount(DigitsValue(s[..k]), s[k..], u)
  }

  /** What follows a leading count `n`: its unit, or hours, a space and a count of minutes. */
  function AfterCount(n: nat, rest: string, u: Units): Option<nat> {
    if rest == u.minute then Some(n)
    else if rest == u.hour then Some(n * 60)
    else if |rest| > |u.hour| && rest[..|u.hour| + 1] == u.hour + " " then
      MinutesAfter(n, rest[|u.hour| + 1..], u)
    else None
  }

  /** What follows `n` hours, the hour word and a space: a count of minutes and its unit. */
  function MinutesAfter(n: nat, tail: string, u: Units): Option<nat> {
    var k := DigitRun(tail);
    if k > 0 && tail[k..] == u.minute then Some(n * 60 + DigitsValue(tail[..k])) else None
  }

  /** A printed count followed by a unit reads back as the count and that unit. */
  lemma CountThen(n: nat, t: string)
    requires t == [] || !IsDigit(t[0])
    ensures var s := NatToString(n) + t;
      DigitRun(s) == |NatToString(n)| && s[..DigitRun(s)] == NatToString(n) && s[DigitRun(s)..] == t
      && DigitsValue(s[..DigitRun(s)]) == n
  {
    DigitRunOf(NatToString(n), t);
    var s := NatToString(n) + t;
    assert s[..|NatToString(n)|] == NatToString(n);
    DigitsValueOfNat(n);
  }

  /** For a non-negative count of minutes the text determines the count: it reads back. */
  lemma FormatMinutesReadsBack(m: nat, locale: string)
    ensures ParseMinutes(FormatMinutes(Some(m), locale), UnitsFor(locale)) == Some(m)
  {
    var hours: nat, mins: nat := m / 60, m % 60;
    assert hours * 60 + mins == m;
    FormatMinutesOfNat(m, locale);
    PrintedReadsBack(hours, mins, UnitsFor(locale));
  }

  /** The text for `hours` and `mins` in the units `u` reads back as their total in minutes. */
  lemma PrintedReadsBack(hours: nat, mins: nat, u: Units)
    requires u.hour != u.minute && |u.hour| > 0 && |u.minute| > 0
    requires !IsDigit(u.hour[0]) && !IsDigit(u.minute[0])
    ensures ParseMinutes(Printed(hours, mins, u), u) == Some(hours * 60 + mins)
  {
    if hours == 0 {
      OneCountReadsBack(mins, u, false);
    } else if mins == 0 {
      OneCountReadsBack(hours, u, true);
    } else {
      HoursAndMinutesReadBack(hours, mins, u);
    }
  }

  /** The text `formatMinutes` prints for a non-negative count. */
  lemma FormatMinutesOfNat(m: nat, locale: string)
    ensures FormatMinutes(Some(m), locale) == Printed(m / 60, m % 60, UnitsFor(locale))
  {
  }

  /** The text for a non-negative count split into whole hours and leftover minutes: the
      hours when there are some, the minutes when there are some or no hours. */
  function Printed(hours: nat, mins: nat, u: Units): string {
    if hours == 0 then NatToString(mins) + u.minute
    else if mins == 0 then NatToString(hours) + u.hour
    else NatToString(hours) + u.hour + " " + NatToString(mins) + u.minute
  }

  /** A count in one unit reads back as that many minutes, or hours. */
  lemma OneCountReadsBack(n: nat, u: Units, inHours: bool)
    requires u.hour != u.minute && |u.hour| > 0 && |u.minute| > 0
    requires !IsDigit(u.hour[0]) && !IsDigit(u.minute[0])
    ensures ParseMinutes(NatToString(n) + (if inHours then u.hour else u.minute), u)
         == Some(if inHours then n * 60 else n)
  {
    ParseCount(n, if inHours then u.hour else u.minute, u);
  }

  lemma HoursAndMinutesReadBack(hours: nat, mins: nat, u: Units)
    requires |u.hour| > 0 && |u.minute| > 0 && !IsDigit(u.hour[0]) && !IsDigit(u.minute[0])
    ensures ParseMinutes(NatToString(hours) + u.hour + " " + NatToString(mins) + u.minute, u)
         == Some(hours * 60 + mins)
  {
    var rest := u.hour + " " + (NatToString(mins) + u.minute);
    assert NatToString(hours) + u.hour + " " + NatToString(mins) + u.minute == NatToString(hours) + rest;
    assert rest[0] == u.hour[0];
    ParseCount(hours, rest, u);
    MinutesAfterHours(hours, mins, u);
  }

  /** A printed count followed by text that does not start with a digit parses as that
      count followed by the text. */
  lemma ParseCount(n: nat, t: string, u: Units)
    requires t == [] || !IsDigit(t[0])
    ensures ParseMinutes(NatToString(n) + t, u) == AfterCount(n, t, u)
  {
    CountThen(n, t);
  }

  lemma MinutesAfterHours(hours: nat, mins: nat, u: Units)
    requires |u.minute| > 0 && !IsDigit(u.minute[0])
    ensures AfterCount(hours, u.hour + " " + (NatToString(mins) + u.minute), u) == Some(hours * 60 + mins)
  {
    AfterHourWord(hours, NatToString(mins) + u.minute, u);
    CountThen(mins, u.minute);
  }

  /** After a count, the hour word and a space, the rest must be a count of minutes. */
  lemma AfterHourWord(n: nat, tail: string, u: Units)
    requires |tail| > |u.minute|
    ensures AfterCount(n, u.hour + " " + tail, u) == MinutesAfter(n, tail, u)
  {
    var head := u.hour + " ";
    var rest := head + tail;
    assert rest != u.minute && rest != u.hour by {
      assert |rest| > |u.minute| && |rest| > |u.hour|;
    }
    assert |rest| > |u.hour| && rest[..|u.hour| + 1] == head by {
      PrefixOfAppend(head, tail);
    }
    assert rest[|u.hour| + 1..] == tail by {
      SuffixOfAppend(head, tail);
    }
  }

  lemma PrefixOfAppend(a: string, b: string)
    ensures (a + b)[..|a|] == a
  {
  }

  lemma SuffixOfAppend(a: string, b: string)
    ensures (a + b)[|a|..] == b
  {
  }

  /** The split behind the text: whole hours and the minutes left over. */
  lemma MinutesSplit(m: nat)
    ensures (m / 60) * 60 + JsRem(m, 60) == m && 0 <= JsRem(m, 60) < 60
  {
  }

  /** A negative count keeps only its remainder: -90 prints as "-30m". */
  lemma NegativeMinutesLoseHours()
    ensures FormatMinutes(Some(-90), EN) == "-30m"
  {
    assert -90 / 60 == -2;
    assert JsRem(-90, 60) == -30;
    assert NatToString(30) == "30" by {
      assert NatToString(3) == "3";
    }
  }

  // ------------------------------------------------------------ formatRelativeTime

  /** What `formatRelativeTime` says for a past instant. */
  datatype Elapsed = JustNow | MinutesAgo(n: int) | HoursAgo(n: int) | DaysAgo(n: int) | OverAWeek

  const MS_PER_MINUTE: int := 60000
  const MS_PER_HOUR: int := 3600000
  const MS_PER_DAY: int := 86400000

  /** The bucket for `diffMs` milliseconds, chosen by the chain of floored quotients
      `diffSec`, `diffMin`, `diffHour`, `diffDay`: each bucket is a range of milliseconds
      and its count is the floored number of whole units. */
  function Bucket(diffMs: int): (b: Elapsed)
    ensures b == JustNow <==> diffMs < MS_PER_MINUTE
    ensures b.MinutesAgo? <==> MS_PER_MINUTE <= diffMs < MS_PER_HOUR
    ensures b.HoursAgo? <==> MS_PER_HOUR <= diffMs < MS_PER_DAY
    ensures b.DaysAgo? <==> MS_PER_DAY <= diffMs < 7 * MS_PER_DAY
    ensures b.MinutesAgo? ==> b.n == diffMs / MS_PER_MINUTE && 1 <= b.n < 60
    ensures b.HoursAgo? ==> b.n == diffMs / MS_PER_HOUR && 1 <= b.n < 24
    ensures b.DaysAgo? ==> b.n == diffMs / MS_PER_DAY && 1 <= b.n < 7
  {
    var diffSec := diffMs / 1000;
    var diffMin := diffSec / 60;
    var diffHour := diffMin / 60;
    var diffDay := diffHour / 24;
    if diffSec < 60 then JustNow
    else if diffMin < 60 then MinutesAgo(diffMin)
    else if diffHour < 24 then HoursAgo(diffHour)
    else if diffDay < 7 then DaysAgo(diffDay)
    else OverAWeek
  }

  /** `s` only for a count above one. */
  function Plural(n: int): (s: string)
    ensures s == "s" || s == ""
    ensures s != "" <==> n > 1
  {
    if n > 1 then "s" else ""
  }

  /** Whether the bucket shows a count. */
  predicate Counted(b: Elapsed) {
    b.MinutesAgo? || b.HoursAgo? || b.DaysAgo?
  }

  /** "`n` `unit`s ago" in English: the count, the unit word, an "s" above one, then "ago". */
  function EnglishAgo(n: int, unit: string): (r: string)
    requires |unit| > 1 && unit[|unit| - 1] != 's'
    ensures |r| > |IntToString(n)| + 5 && r[..|IntToString(n)|] == IntToString(n)
    ensures r[|r| - 4..] == " ago" && (r[|r| - 5] == 's' <==> n > 1)
  {
    var count := IntToString(n);
    var word := unit + Plural(n);
    assert word[|word| - 1] == 's' <==> n > 1;
    var r := count + word + " ago";
    assert r[..|count|] == count;
    assert r[|r| - 5] == word[|word| - 1];
    r
  }

  /** "`n``unit` 전" in Korean: the count, the unit word, then "전". */
  function KoreanAgo(n: int, unit: string): (r: string)
    requires unit != ""
    ensures |r| > |IntToString(n)| + 2 && r[..|IntToString(n)|] == IntToString(n)
    ensures r[|r| - 2..] == " \U{c804}"
  {
    var count := IntToString(n);
    var r := count + unit + " \U{c804}";
    assert r[..|count|] == count;
    r
  }

  /** The text for a bucket (`useI18n.ts` lines 112-124): a counted bucket starts with its
      count and ends with "ago" ("전" in Korean); in English the unit is plural exactly for a
      count above one. */
  function RenderElapsed(b: Elapsed, locale: string, asDate: string): (r: string)
    ensures b.OverAWeek? ==> r == asDate
    ensures b.JustNow? ==> r == (if locale == KO then "\U{bc29}\U{ae08} \U{c804}" else "just now")
    ensures Counted(b) ==> |r| > |IntToString(b.n)| + 2 && r[..|IntToString(b.n)|] == IntToString(b.n)
    ensures Counted(b) && locale == KO ==> r[|r| - 2..] == " \U{c804}"
    ensures Counted(b) && locale != KO ==>
      |r| > |IntToString(b.n)| + 5 && r[|r| - 4..] == " ago" && (r[|r| - 5] == 's' <==> b.n > 1)
  {
    if locale == KO then
      match b
      case JustNow => "\U{bc29}\U{ae08} \U{c804}"
      case MinutesAgo(n) => KoreanAgo(n, "\U{bd84}")
      case HoursAgo(n) => KoreanAgo(n, "\U{c2dc}\U{ac04}")
      case DaysAgo(n) => KoreanAgo(n, "\U{c77c}")
      case OverAWeek => asDate
    else
      match b
      case JustNow => "just now"
      case MinutesAgo(n) => EnglishAgo(n, " minute")
      case HoursAgo(n) => EnglishAgo(n, " hour")
      case DaysAgo(n) => EnglishAgo(n, " day")
      case OverAWeek => asDate
  }

  /** `formatRelativeTime(dateString)`. `elapsedMs` is `now - date` in milliseconds, or
      `None` when the date does not parse; `asDate` is what `formatDate` prints. */
  function FormatRelativeTime(dateString: Option<string>, elapsedMs: Option<int>, locale: string,
                              asDate: string): (r: string)
    ensures dateString.None? || dateString.value == "" || elapsedMs.None? ==> r == "-"
    ensures dateString.Some? && dateString.value != "" && elapsedMs.Some? ==>
      (elapsedMs.value < MS_PER_MINUTE ==> r == (if locale == KO then "\U{bc29}\U{ae08} \U{c804}" else "just now"))
      && (elapsedMs.value >= 7 * MS_PER_DAY ==> r == asDate)
  {
    if dateString.None? || dateString.value == "" then "-"
    else if elapsedMs.None? then "-"
    else RenderElapsed(Bucket(elapsedMs.value), locale, asDate)
  }

  /** In English the unit is singular for one and plural from two on: a minute and a half
      ago is "1 minute ago", two minutes ago is "2 minutes ago". */
  lemma EnglishMinutes(diffMs: int)
    requires MS_PER_MINUTE <= diffMs < MS_PER_HOUR
    ensures var n := diffMs / MS_PER_MINUTE;
      FormatRelativeTime(Some("d"), Some(diffMs), EN, "") ==
        IntToString(n) + " minute" + (if n == 1 then "" else "s") + " ago"
  {
    assert Bucket(diffMs).MinutesAgo?;
  }

  // ------------------------------------------------------------ formatCurrency

  /** The currency and digits `formatCurrency` asks `Intl` for. */
  datatype CurrencyFormat = CurrencyFormat(currency: string, minimumFractionDigits: nat,
                                           maximumFractionDigits: nat)

  /** `currency || (ko ? 'KRW' : 'USD')`, and no fraction digits for won only. */
  function CurrencyFormatFor(currency: Option<string>, locale: string): (f: CurrencyFormat)
    ensures currency.Some? && currency.value != "" ==> f.currency == currency.value
    ensures currency.None? || currency.value == "" ==> f.currency == (if locale == KO then "KRW" else "USD")
    ensures f.minimumFractionDigits == f.maximumFractionDigits
    ensures f.minimumFractionDigits == (if f.currency == "KRW" then 0 else 2)
  {
    var code := if currency.Some? && currency.value != "" then currency.value
                else if locale == KO then "KRW" else "USD";
    var digits := if code == "KRW" then 0 else 2;
    CurrencyFormat(code, digits, digits)
  }

  /** An explicit currency makes the locale irrelevant; without one, Korean means whole won. */
  lemma CurrencyChoice(c: string, l1: string, l2: string)
    ensures c != "" ==> CurrencyFormatFor(Some(c), l1) == CurrencyFormatFor(Some(c), l2)
    ensures CurrencyFormatFor(None, KO) == CurrencyFormatFor(Some(""), KO) == CurrencyFormat("KRW", 0, 0)
    ensures CurrencyFormatFor(None, EN) == CurrencyFormat("USD", 2, 2)
  {
  }

  // ------------------------------------------------------------ translate*

  predicate IsLower(c: char) {
    'a' <= c <= 'z'
  }

  predicate IsUpper(c: char) {
    'A' <= c <= 'Z'
  }

  /** `toUpperCase` on one ASCII character. */
  function Upper(c: char): (u: char)
    ensures IsLower(c) ==> IsUpper(u) && u as int == c as int - 32
    ensures !IsLower(c) ==> u == c
  {
    if IsLower(c) then (c as int - 32) as char else c
  }

  function Lower(c: char): (l: char)
    ensures IsUpper(c) ==> IsLower(l) && l as int == c as int + 32
    ensures !IsUpper(c) ==> l == c
  {
    if IsUpper(c) then (c as int + 32) as char else c
  }

  /** The regular expression class `\w`. */
  predicate IsWordChar(c: char) {
    IsLower(c) || IsUpper(c) || IsDigit(c) || c == '_'
  }

  /** Position `i` matches `\b\w`: a word character not preceded by one. */
  predicate WordStart(s: string, i: int)
    requires 0 <= i < |s|
  {
    IsWordChar(s[i]) && (i == 0 || !IsWordChar(s[i - 1]))
  }

  /** `replace(/_/g, ' ')`. */
  function Spaced(s: string): (r: string)
    ensures |r| == |s| && forall i :: 0 <= i < |s| ==> r[i] == if s[i] == '_' then ' ' else s[i]
  {
    seq(|s|, i requires 0 <= i < |s| => if s[i] == '_' then ' ' else s[i])
  }

  /** `replace(/\b\w/g, c => c.toUpperCase())`. */
  function UpperWordStarts(s: string): (r: string)
    ensures |r| == |s| && forall i :: 0 <= i < |s| ==> r[i] == if WordStart(s, i) then Upper(s[i]) else s[i]
  {
    seq(|s|, i requires 0 <= i < |s| => if WordStart(s, i) then Upper(s[i]) else s[i])
  }

  /** The fallback of `translateStatus`: underscores become spaces and every word starts
      with a capital; nothing else moves. */
  function TitleCase(s: string): (r: string)
    ensures |r| == |s|
    ensures forall i :: 0 <= i < |r| ==> r[i] != '_'
  {
    UpperWordStarts(Spaced(s))
  }

  /** The fallback of the other translators: `charAt(0).toUpperCase() + slice(1)`. */
  function Capitalized(s: string): (r: string)
    ensures |r| == |s|
    ensures s != [] ==> r[0] == Upper(s[0]) && r[1..] == s[1..]
  {
    if s == [] then [] else [Upper(s[0])] + s[1..]
  }

  /** A snake-case key: lower-case letters, digits and underscores. */
  predicate IsSnake(s: string) {
    forall i :: 0 <= i < |s| ==> IsLower(s[i]) || IsDigit(s[i]) || s[i] == '_'
  }

  /** Lower-casing and turning spaces back into underscores. */
  function Unspaced(s: string): (r: string)
    ensures |r| == |s| && forall i :: 0 <= i < |s| ==> r[i] == if s[i] == ' ' then '_' else Lower(s[i])
  {
    seq(|s|, i requires 0 <= i < |s| => if s[i] == ' ' then '_' else Lower(s[i]))
  }

  /** The title-cased fallback loses nothing of a snake-case key: undoing it gives the key
      back. */
  lemma TitleCaseReversible(s: string)
    requires IsSnake(s)
    ensures Unspaced(TitleCase(s)) == s
  {
    var r := Unspaced(TitleCase(s));
    forall i | 0 <= i < |s|
      ensures r[i] == s[i]
    {
      var sp := Spaced(s);
      assert TitleCase(s)[i] == if WordStart(sp, i) then Upper(sp[i]) else sp[i];
    }
  }

  /** Title-casing an already title-cased text changes nothing. */
  lemma TitleCaseIdempotent(s: string)
    ensures TitleCase(TitleCase(s)) == TitleCase(s)
  {
    var t := TitleCase(s);
    var sp := Spaced(s);
    assert Spaced(t) == t;
    forall i | 0 <= i < |t|
      ensures TitleCase(t)[i] == t[i]
    {
      assert IsWordChar(t[i]) <==> IsWordChar(sp[i]);
      if i > 0 {
        assert IsWordChar(t[i - 1]) <==> IsWordChar(sp[i - 1]);
      }
    }
  }

  /** The key a translator looks up: `status.in_progress`, `priority.high`, ... */
  function Key(namespace: string, value: string): string {
    namespace + "." + value
  }

  /** `t(key) === key` means the key is missing; the fallback is used exactly then. */
  function Translate(t: string -> string, key: string, fallback: string): (r: string)
    ensures t(key) != key ==> r == t(key)
    ensures t(key) == key ==> r == fallback
  {
    var translated := t(key);
    if translated == key then fallback else translated
  }

  function TranslateStatus(t: string -> string, status: string): (r: string)
    ensures t(Key("status", status)) == Key("status", status) ==> r == TitleCase(status)
    ensures t(Key("status", status)) != Key("status", status) ==> r == t(Key("status", status))
  {
    Translate(t, Key("status", status), TitleCase(status))
  }

  /** Untranslated, a status keeps its length and, when it is a snake-case key, can be read
      back from the text. */
  lemma StatusFallbackReadsBack(t: string -> string, status: string)
    requires t(Key("status", status)) == Key("status", status)
    ensures |TranslateStatus(t, status)| == |status|
    ensures IsSnake(status) ==> Unspaced(TranslateStatus(t, status)) == status
  {
    if IsSnake(status) {
      TitleCaseReversible(status);
    }
  }

  function TranslatePriority(t: string -> string, priority: string): (r: string)
    ensures t(Key("priority", priority)) == Key("priority", priority) ==> r == Capitalized(priority)
    ensures t(Key("priority", priority)) != Key("priority", priority) ==> r == t(Key("priority", priority))
  {
    Translate(t, Key("priority", priority), Capitalized(priority))
  }

  function TranslateCategory(t: string -> string, category: string): (r: string)
    ensures t(Key("category", category)) == Key("category", category) ==> r == Capitalized(category)
    ensures t(Key("category", category)) != Key("category", category) ==> r == t(Key("category", category))
  {
    Translate(t, Key("category", category), Capitalized(category))
  }

  function TranslateChannel(t: string -> string, channel: string): (r: string)
    ensures t(Key("channel", channel)) == Key("channel", channel) ==> r == Capitalized(channel)
    ensures t(Key("channel", channel)) != Key("channel", channel) ==> r == t(Key("channel", channel))
  {
    Translate(t, Key("channel", channel), Capitalized(channel))
  }

  function TranslateWorkType(t: string -> string, workType: string): (r: string)
    ensures t(Key("workType", workType)) == Key("workType", workType) ==> r == Capitalized(workType)
    ensures t(Key("workType", workType)) != Key("workType", workType) ==> r == t(Key("workType", workType))
  {
    Translate(t, Key("workType", workType), Capitalized(workType))
  }

  function TranslateChargerStatus(t: string -> string, status: string): (r: string)
    ensures t(Key("chargerStatus", status)) == Key("chargerStatus", status) ==> r == Capitalized(status)
    ensures t(Key("chargerStatus", status)) != Key("chargerStatus", status) ==>
      r == t(Key("chargerStatus", status))
  {
    Translate(t, Key("chargerStatus", status), Capitalized(status))
  }

  /** With no translations at all, a status reads as words: `in_progress` as "In Progress". */
  lemma UntranslatedStatus()
    ensures TranslateStatus(k => k, "in_progress") == "In Progress"
  {
    var t := TitleCase("in_progress");
    assert t[0] == 'I' && t[3] == 'P';
    assert t == "In Progress";
  }

  // ------------------------------------------------------------ get*Options

  datatype SelectOption = SelectOption(value: string, label_: string)

  /** `values.map(v => ({ value: v, label: translate(v) }))`; `label_` is the `label` field,
      since `label` is a Dafny keyword. */
  function OptionsFor(values: seq<string>, translate: string -> string): (r: seq<SelectOption>)
    ensures |r| == |values|
    ensures forall i :: 0 <= i < |r| ==> r[i] == SelectOption(values[i], translate(values[i]))
  {
    if values == [] then []
    else [SelectOption(values[0], translate(values[0]))] + OptionsFor(values[1..], translate)
  }

  const STATUSES: seq<string> :=
    ["new", "assigned", "in_progress", "pending_customer", "pending_vendor", "resolved", "closed", "cancelled"]
  const PRIORITIES: seq<string> := ["critical", "high", "medium", "low"]
  const CATEGORIES: seq<string> := ["hardware", "software", "network", "power", "connector", "firmware", "other"]
  const CHANNELS: seq<string> := ["phone", "email", "web", "mobile", "auto"]
  const WORK_TYPES: seq<string> := ["diagnosis", "repair", "testing", "communication", "travel", "waiting", "other"]

  function GetStatusOptions(t: string -> string): (r: seq<SelectOption>)
    ensures |r| == |STATUSES|
    ensures forall i :: 0 <= i < |r| ==> r[i].value == STATUSES[i] && r[i].label_ == TranslateStatus(t, STATUSES[i])
  {
    OptionsFor(STATUSES, s => TranslateStatus(t, s))
  }

  function GetPriorityOptions(t: string -> string): (r: seq<SelectOption>)
    ensures |r| == |PRIORITIES|
    ensures forall i :: 0 <= i < |r| ==>
      r[i].value == PRIORITIES[i] && r[i].label_ == TranslatePriority(t, PRIORITIES[i])
  {
    OptionsFor(PRIORITIES, s => TranslatePriority(t, s))
  }

  function GetCategoryOptions(t: string -> string): (r: seq<SelectOption>)
    ensures |r| == |CATEGORIES|
    ensures forall i :: 0 <= i < |r| ==>
      r[i].value == CATEGORIES[i] && r[i].label_ == TranslateCategory(t, CATEGORIES[i])
  {
    OptionsFor(CATEGORIES, s => TranslateCategory(t, s))
  }

  function GetChannelOptions(t: string -> string): (r: seq<SelectOption>)
    ensures |r| == |CHANNELS|
    ensures forall i :: 0 <= i < |r| ==> r[i].value == CHANNELS[i] && r[i].label_ == TranslateChannel(t, CHANNELS[i])
  {
    OptionsFor(CHANNELS, s => TranslateChannel(t, s))
  }

  function GetWorkTypeOptions(t: string -> string): (r: seq<SelectOption>)
    ensures |r| == |WORK_TYPES|
    ensures forall i :: 0 <= i < |r| ==>
      r[i].value == WORK_TYPES[i] && r[i].label_ == TranslateWorkType(t, WORK_TYPES[i])
  {
    OptionsFor(WORK_TYPES, s => TranslateWorkType(t, s))
  }
}
