/**
 * The variable conversions of src/components/forms/FormViewer.tsx. On the
 * way in, Camunda's variable bag is copied and its JSON-looking strings
 * decoded and its date-looking strings normalised; on the way out, every
 * form value is wrapped as `{value}`, ISO dates are re-encoded with a
 * `Date` type and `files::` references are replaced by the storage ids of
 * the uploaded files, all before the Camunda task is completed.
 *
 * `JSON.parse`, `new Date(s).toISOString()` and the upload are the
 * parameters `parse`, `toIso` and `upload`; `None` stands for a parse that
 * throws and for an invalid date.
 */
module FormViewer {
  import opened Wrappers
  import opened Strings
  import opened JsValues
  import opened Store
  import TasksApi
  import DynamicForm

  // ---------------------------------------------------------------------
  // isISODateString

  /** `\d{n}` at position `i`. */
  predicate DigitsAt(s: string, i: nat, n: nat)
  {
    i + n <= |s| && forall j :: i <= j < i + n ==> IsDigit(s[j])
  }

  /** `(Z|[+-]\d{2}:\d{2})?` followed by the end, `Z` in either case. */
  predicate ZoneSuffix(t: string)
  {
    t == "" || t == "Z" || t == "z"
    || (|t| == 6 && t[0] in "+-" && DigitsAt(t, 1, 2) && t[3] == ':' && DigitsAt(t, 4, 2))
  }

  /** `(\.\d{3})?` and the zone. */
  predicate MillisZone(t: string)
  {
    ZoneSuffix(t) || (|t| >= 4 && t[0] == '.' && DigitsAt(t, 1, 3) && ZoneSuffix(t[4..]))
  }

  /** `(:\d{2})?`, the milliseconds and the zone. */
  predicate IsoTail(t: string)
  {
    MillisZone(t) || (|t| >= 3 && t[0] == ':' && DigitsAt(t, 1, 2) && MillisZone(t[3..]))
  }

  /** `dddd-dd-ddTdd:dd`, the first sixteen characters, `T` in either case. */
  predicate IsoHead(h: string)
  {
    |h| == 16 && DigitsAt(h, 0, 4) && h[4] == '-' && DigitsAt(h, 5, 2) && h[7] == '-' && DigitsAt(h, 8, 2)
    && h[10] in "Tt" && DigitsAt(h, 11, 2) && h[13] == ':' && DigitsAt(h, 14, 2)
  }

  /** `isISODateString`: the anchored, case-insensitive ISO date pattern. */
  predicate IsISODateString(s: string)
  {
    |s| >= 16 && IsoHead(s[..16]) && IsoTail(s[16..])
  }

  /** The pieces an ISO date string is made of, as written. */
  datatype Zone = Local | Utc(letter: char) | Offset(sign: char, hours: string, minutes: string)

  datatype IsoParts = IsoParts(year: string, month: string, day: string, sep: char, hour: string, minute: string,
                               seconds: Option<string>, millis: Option<string>, zone: Zone)

  predicate ZoneOk(z: Zone)
  {
    match z
    case Local => true
    case Utc(c) => c in "Zz"
    case Offset(sign, h, m) => sign in "+-" && |h| == 2 && DigitsAt(h, 0, 2) && |m| == 2 && DigitsAt(m, 0, 2)
  }

  predicate PartsOk(p: IsoParts)
  {
    |p.year| == 4 && DigitsAt(p.year, 0, 4) && |p.month| == 2 && DigitsAt(p.month, 0, 2)
    && |p.day| == 2 && DigitsAt(p.day, 0, 2) && p.sep in "Tt"
    && |p.hour| == 2 && DigitsAt(p.hour, 0, 2) && |p.minute| == 2 && DigitsAt(p.minute, 0, 2)
    && (p.seconds.Some? ==> |p.seconds.value| == 2 && DigitsAt(p.seconds.value, 0, 2))
    && (p.millis.Some? ==> |p.millis.value| == 3 && DigitsAt(p.millis.value, 0, 3))
    && ZoneOk(p.zone)
  }

  function ZoneText(z: Zone): string
  {
    match z
    case Local => ""
    case Utc(c) => [c]
    case Offset(sign, h, m) => [sign] + h + ":" + m
  }

  function HeadText(p: IsoParts): string
  {
    p.year + "-" + p.month + "-" + p.day + [p.sep] + p.hour + ":" + p.minute
  }

  function MillisZoneText(p: IsoParts): string
  {
    (if p.millis.Some? then "." + p.millis.value else "") + ZoneText(p.zone)
  }

  function TailText(p: IsoParts): string
  {
    (if p.seconds.Some? then ":" + p.seconds.value else "") + MillisZoneText(p)
  }

  /** The text of a date written from its pieces. */
  function IsoText(p: IsoParts): string
  {
    HeadText(p) + TailText(p)
  }

  lemma HeadTextAccepted(p: IsoParts)
    requires PartsOk(p)
    ensures |HeadText(p)| == 16 && IsoHead(HeadText(p))
  {
    var h := HeadText(p);
    assert h[..4] == p.year && h[5..7] == p.month && h[8..10] == p.day;
    assert h[11..13] == p.hour && h[14..16] == p.minute;
    forall j | 0 <= j < 4 ensures IsDigit(h[j]) { assert h[j] == p.year[j]; }
    forall j | 5 <= j < 7 ensures IsDigit(h[j]) { assert h[j] == p.month[j - 5]; }
    forall j | 8 <= j < 10 ensures IsDigit(h[j]) { assert h[j] == p.day[j - 8]; }
    forall j | 11 <= j < 13 ensures IsDigit(h[j]) { assert h[j] == p.hour[j - 11]; }
    forall j | 14 <= j < 16 ensures IsDigit(h[j]) { assert h[j] == p.minute[j - 14]; }
  }

  lemma ZoneTextAccepted(z: Zone)
    requires ZoneOk(z)
    ensures ZoneSuffix(ZoneText(z))
  {
    if z.Offset? {
      var t := ZoneText(z);
      forall j | 1 <= j < 3 ensures IsDigit(t[j]) { assert t[j] == z.hours[j - 1]; }
      forall j | 4 <= j < 6 ensures IsDigit(t[j]) { assert t[j] == z.minutes[j - 4]; }
    }
  }

  lemma TailTextAccepted(p: IsoParts)
    requires PartsOk(p)
    ensures IsoTail(TailText(p))
  {
    var mz := MillisZoneText(p);
    MillisZoneTextAccepted(p);
    if p.seconds.Some? {
      var sec := p.seconds.value;
      var t := TailText(p);
      assert t == ":" + sec + mz;
      assert t[3..] == mz;
      forall j | 1 <= j < 3 ensures IsDigit(t[j]) { assert t[j] == sec[j - 1]; }
      assert |t| >= 3 && t[0] == ':' && DigitsAt(t, 1, 2) && MillisZone(t[3..]);
    } else {
      assert TailText(p) == mz;
    }
  }

  lemma MillisZoneTextAccepted(p: IsoParts)
    requires PartsOk(p)
    ensures MillisZone(MillisZoneText(p))
  {
    ZoneTextAccepted(p.zone);
    var mz := MillisZoneText(p);
    if p.millis.Some? {
      var ms := p.millis.value;
      assert mz == "." + ms + ZoneText(p.zone);
      assert mz[4..] == ZoneText(p.zone);
      forall j | 1 <= j < 4 ensures IsDigit(mz[j]) { assert mz[j] == ms[j - 1]; }
    } else {
      assert mz == ZoneText(p.zone);
    }
  }

  /** Every date written from well-formed pieces is accepted. */
  lemma IsoTextAccepted(p: IsoParts)
    requires PartsOk(p)
    ensures IsISODateString(IsoText(p))
  {
    HeadTextAccepted(p);
    TailTextAccepted(p);
    var s := IsoText(p);
    assert s[..16] == HeadText(p) && s[16..] == TailText(p);
  }

  function ZoneOf(t: string): (z: Zone)
    requires ZoneSuffix(t)
    ensures ZoneOk(z) && ZoneText(z) == t
  {
    if t == "" then Local
    else if |t| == 1 then Utc(t[0])
    else
      assert t == [t[0]] + t[1..3] + ":" + t[4..6];
      Offset(t[0], t[1..3], t[4..6])
  }

  function MillisZoneOf(t: string): (r: (Option<string>, Zone))
    requires MillisZone(t)
    ensures r.0.Some? ==> |r.0.value| == 3 && DigitsAt(r.0.value, 0, 3)
    ensures ZoneOk(r.1)
    ensures (if r.0.Some? then "." + r.0.value else "") + ZoneText(r.1) == t
  {
    if |t| >= 4 && t[0] == '.' && DigitsAt(t, 1, 3) && ZoneSuffix(t[4..]) then
      assert t == "." + t[1..4] + t[4..];
      (Some(t[1..4]), ZoneOf(t[4..]))
    else (None, ZoneOf(t))
  }

  function TailOf(t: string): (r: (Option<string>, Option<string>, Zone))
    requires IsoTail(t)
    ensures r.0.Some? ==> |r.0.value| == 2 && DigitsAt(r.0.value, 0, 2)
    ensures r.1.Some? ==> |r.1.value| == 3 && DigitsAt(r.1.value, 0, 3)
    ensures ZoneOk(r.2)
    ensures (if r.0.Some? then ":" + r.0.value else "") + ((if r.1.Some? then "." + r.1.value else "") + ZoneText(r.2)) == t
  {
    if |t| >= 3 && t[0] == ':' && DigitsAt(t, 1, 2) && MillisZone(t[3..]) then
      assert t == ":" + t[1..3] + t[3..];
      var mz := MillisZoneOf(t[3..]);
      (Some(t[1..3]), mz.0, mz.1)
    else
      var mz := MillisZoneOf(t);
      (None, mz.0, mz.1)
  }

  lemma HeadSplit(h: string)
    requires IsoHead(h)
    ensures h == h[..4] + "-" + h[5..7] + "-" + h[8..10] + [h[10]] + h[11..13] + ":" + h[14..16]
    ensures DigitsAt(h[..4], 0, 4) && DigitsAt(h[5..7], 0, 2) && DigitsAt(h[8..10], 0, 2)
    ensures DigitsAt(h[11..13], 0, 2) && DigitsAt(h[14..16], 0, 2)
  {
  }

  /**
   * Every accepted string is a date written from well-formed pieces: with
   * `IsoTextAccepted`, the pattern accepts exactly these texts.
   */
  function PartsOf(s: string): (p: IsoParts)
    requires IsISODateString(s)
    ensures PartsOk(p) && IsoText(p) == s
  {
    var h := s[..16];
    var tail := TailOf(s[16..]);
    var p := IsoParts(h[..4], h[5..7], h[8..10], h[10], h[11..13], h[14..16], tail.0, tail.1, tail.2);
    HeadOfParts(h, p);
    TailOfParts(s[16..], p);
    assert s == h + s[16..];
    p
  }

  /** The tail pieces of an accepted tail are well formed and give it back. */
  lemma TailOfParts(t: string, p: IsoParts)
    requires IsoTail(t)
    requires (p.seconds, p.millis, p.zone) == TailOf(t)
    ensures TailText(p) == t
    ensures p.seconds.Some? ==> |p.seconds.value| == 2 && DigitsAt(p.seconds.value, 0, 2)
    ensures p.millis.Some? ==> |p.millis.value| == 3 && DigitsAt(p.millis.value, 0, 3)
    ensures ZoneOk(p.zone)
  {
    var r := TailOf(t);
    assert MillisZoneText(p) == (if r.1.Some? then "." + r.1.value else "") + ZoneText(r.2);
  }

  /** The head pieces cut out of an accepted head are well formed and give it back. */
  lemma HeadOfParts(h: string, p: IsoParts)
    requires IsoHead(h)
    requires p.year == h[..4] && p.month == h[5..7] && p.day == h[8..10] && p.sep == h[10]
    requires p.hour == h[11..13] && p.minute == h[14..16]
    ensures HeadText(p) == h
    ensures |p.year| == 4 && DigitsAt(p.year, 0, 4) && |p.month| == 2 && DigitsAt(p.month, 0, 2)
    ensures |p.day| == 2 && DigitsAt(p.day, 0, 2) && p.sep in "Tt"
    ensures |p.hour| == 2 && DigitsAt(p.hour, 0, 2) && |p.minute| == 2 && DigitsAt(p.minute, 0, 2)
  {
    HeadSplit(h);
  }

  /** The four examples the source lists are accepted. */
  lemma IsoExampleMillisUtc()
    ensures IsISODateString("2025-09-05T03:06:00.000Z")
  {
  }

  lemma IsoExampleSecondsUtc()
    ensures IsISODateString("2025-09-05T03:06:00Z")
  {
  }

  lemma IsoExampleMinutesOffset()
    ensures IsISODateString("2025-09-05T03:06-06:00")
  {
  }

  lemma IsoExampleSecondsOffset()
    ensures IsISODateString("2025-09-05T03:06:00-06:00")
  {
  }

  /** Both letters match in either case. */
  lemma IsoLowerCaseAccepted()
    ensures IsISODateString("2025-09-05t03:06z")
  {
  }

  /** A bare date, two-digit milliseconds or trailing text are not accepted. */
  lemma IsoNearMissesRejected()
    ensures !IsISODateString("2025-09-05")
    ensures !IsISODateString("2025-09-05T03:06:00.00Z")
    ensures !IsISODateString("2025-09-05T03:06:00Z ")
  {
    var s := "2025-09-05T03:06:00.00Z";
    assert s[16..] == ":00.00Z" && s[16..][3..] == ".00Z";
    assert !IsDigit(".00Z"[3]);
    var u := "2025-09-05T03:06:00Z ";
    assert u[16..] == ":00Z " && u[16..][3..] == "Z ";
  }

  // ---------------------------------------------------------------------
  // isDateString

  /** The length of the run of digits from `i`. */
  function DigitRun(s: string, i: nat): (k: nat)
    requires i <= |s|
    ensures i + k <= |s| && DigitsAt(s, i, k)
    ensures i + k < |s| ==> !IsDigit(s[i + k])
    decreases |s| - i
  {
    if i < |s| && IsDigit(s[i]) then 1 + DigitRun(s, i + 1) else 0
  }

  /** The length of the run of white space from `i`. */
  function SpaceRun(s: string, i: nat): (k: nat)
    requires i <= |s|
    ensures i + k <= |s| && forall j :: i <= j < i + k ==> IsJsSpace(s[j])
    ensures i + k < |s| ==> !IsJsSpace(s[i + k])
    decreases |s| - i
  {
    if i < |s| && IsJsSpace(s[i]) then 1 + SpaceRun(s, i + 1) else 0
  }

  /** `\d{lo,hi}` at `i`, where the next token never matches a digit. */
  function DigitsFrom(s: string, i: nat, lo: nat, hi: nat): (r: Option<nat>)
    requires i <= |s| && lo <= hi
    ensures r.Some? ==> i + lo <= r.value <= i + hi && r.value <= |s| && DigitsAt(s, i, r.value - i)
  {
    var k := DigitRun(s, i);
    if k < lo then None else Some(i + if k < hi then k else hi)
  }

  /** `\s+` at `i`, where the next token never matches a space. */
  function SpacesFrom(s: string, i: nat): (r: Option<nat>)
    requires i <= |s|
    ensures r.Some? ==> i < r.value <= |s|
  {
    var k := SpaceRun(s, i);
    if k == 0 then None else Some(i + k)
  }

  function CharAt(s: string, i: nat, c: char): (r: Option<nat>)
    requires i <= |s|
    ensures r.Some? ==> r.value == i + 1 <= |s| && s[i] == c
  {
    if i < |s| && s[i] == c then Some(i + 1) else None
  }

  function LettersFrom(s: string, i: nat, n: nat): (r: Option<nat>)
    requires i <= |s|
    ensures r.Some? ==> r.value == i + n <= |s|
  {
    if i + n <= |s| && forall j :: i <= j < i + n ==> IsAsciiLetter(s[j]) then Some(i + n) else None
  }

  /** The pieces the date patterns are made of. */
  datatype Token = Letters(count: nat) | Spaces | Digits(lo: nat, hi: nat) | Lit(c: char)

  /**
   * One token at `i`. Each pattern is written so that no token can match
   * the first character of the next one, so taking the longest run is what
   * the regular expression's backtracking settles on.
   */
  function Step(s: string, i: nat, t: Token): (r: Option<nat>)
    requires i <= |s|
    ensures r.Some? ==> i <= r.value <= |s|
  {
    match t
    case Letters(n) => LettersFrom(s, i, n)
    case Spaces => SpacesFrom(s, i)
    case Digits(lo, hi) => if lo <= hi then DigitsFrom(s, i, lo, hi) else None
    case Lit(c) => CharAt(s, i, c)
  }

  /** Where the tokens, matched in sequence from `i`, end. */
  function MatchFrom(s: string, i: nat, toks: seq<Token>): (r: Option<nat>)
    requires i <= |s|
    ensures r.Some? ==> i <= r.value <= |s|
    decreases |toks|
  {
    if |toks| == 0 then Some(i)
    else
      match Step(s, i, toks[0])
      case None => None
      case Some(j) => MatchFrom(s, j, toks[1..])
  }

  /** `[A-Za-z]{3}\s+\d{1,2},\s+\d{4},\s+\d{1,2}:\d{2}:\d{2}\s+`, before the meridiem. */
  const SpelledPattern: seq<Token> := [Letters(3), Spaces, Digits(1, 2), Lit(','), Spaces, Digits(4, 4), Lit(','),
                                       Spaces, Digits(1, 2), Lit(':'), Digits(2, 2), Lit(':'), Digits(2, 2), Spaces]

  /** `^[A-Za-z]{3}\s+\d{1,2},\s+\d{4},\s+\d{1,2}:\d{2}:\d{2}\s+(AM|PM)$`, case-insensitive. */
  predicate SpelledDate(s: string)
  {
    var e := MatchFrom(s, 0, SpelledPattern);
    e.Some? && e.value + 2 == |s| && s[e.value] in "AaPp" && s[e.value + 1] in "Mm"
  }

  /** `^\d{4}-\d{2}-\d{2}T\d{2}:\d{2}:\d{2}`, a prefix test. */
  predicate IsoLikePrefix(s: string)
  {
    |s| >= 19 && DigitsAt(s, 0, 4) && s[4] == '-' && DigitsAt(s, 5, 2) && s[7] == '-' && DigitsAt(s, 8, 2)
    && s[10] == 'T' && DigitsAt(s, 11, 2) && s[13] == ':' && DigitsAt(s, 14, 2) && s[16] == ':' && DigitsAt(s, 17, 2)
  }

  /** `^\d{1,2}\/\d{1,2}\/\d{4}`, a prefix test. */
  predicate SlashDatePrefix(s: string)
  {
    MatchFrom(s, 0, [Digits(1, 2), Lit('/'), Digits(1, 2), Lit('/'), Digits(4, 4)]).Some?
  }

  /** `isDateString`: any of the three patterns. */
  predicate IsDateString(s: string)
  {
    SpelledDate(s) || IsoLikePrefix(s) || SlashDatePrefix(s)
  }

  /** An ISO string with an upper-case `T` and seconds also passes `isDateString`; one without seconds does not. */
  lemma IsoWithSecondsIsDate(s: string)
    requires IsISODateString(s) && s[10] == 'T' && |s| >= 19 && s[16] == ':'
    ensures IsDateString(s)
  {
    var h := s[..16];
    assert forall j :: 0 <= j < 16 ==> h[j] == s[j];
    var t := s[16..];
    assert t[0] == ':';
    if MillisZone(t) {
      assert false;
    }
    assert DigitsAt(t, 1, 2);
    assert s[17] == t[1] && s[18] == t[2];
  }

  lemma DateStringExampleIsoLike()
    ensures IsDateString("2025-09-05T03:06:00")
  {
    assert IsoLikePrefix("2025-09-05T03:06:00");
  }

  lemma DateStringExampleSlashes()
    ensures IsDateString("9/4/2025")
  {
    var s := "9/4/2025";
    var p := [Digits(1, 2), Lit('/'), Digits(1, 2), Lit('/'), Digits(4, 4)];
    assert DigitRun(s, 0) == 1 && DigitRun(s, 2) == 1 && DigitRun(s, 4) == 4;
    assert MatchFrom(s, 0, p) == MatchFrom(s, 1, p[1..]);
    assert MatchFrom(s, 1, p[1..]) == MatchFrom(s, 2, p[2..]);
    assert MatchFrom(s, 2, p[2..]) == MatchFrom(s, 3, p[3..]);
    assert MatchFrom(s, 3, p[3..]) == MatchFrom(s, 4, p[4..]);
    assert MatchFrom(s, 4, p[4..]) == Some(8);
  }

  lemma DateStringExampleSlashesPrefix()
    ensures IsDateString("12/31/2025 extra")
  {
    var s := "12/31/2025 extra";
    var p := [Digits(1, 2), Lit('/'), Digits(1, 2), Lit('/'), Digits(4, 4)];
    SlashesPrefixRuns(s);
    assert s[2] == '/' && s[5] == '/';
    MatchStep(s, 0, p, 2);
    assert p[1..][0] == Lit('/');
    MatchStep(s, 2, p[1..], 3);
    assert p[1..][1..] == p[2..] && p[2..][0] == Digits(1, 2);
    MatchStep(s, 3, p[2..], 5);
    assert p[2..][1..] == p[3..] && p[3..][0] == Lit('/');
    MatchStep(s, 5, p[3..], 6);
    assert p[3..][1..] == p[4..] && p[4..][0] == Digits(4, 4) && p[4..][1..] == [];
    MatchStep(s, 6, p[4..], 10);
  }

  /** The digit runs of the example, from the right. */
  lemma SlashesPrefixRuns(s: string)
    requires s == "12/31/2025 extra"
    ensures DigitRun(s, 0) == 2 && DigitRun(s, 3) == 2 && DigitRun(s, 6) == 4
  {
    assert s[0] == '1' && s[1] == '2' && s[2] == '/' && s[3] == '3' && s[4] == '1' && s[5] == '/';
    assert s[6] == '2' && s[7] == '0' && s[8] == '2' && s[9] == '5' && s[10] == ' ';
    assert DigitRun(s, 2) == 0 && DigitRun(s, 1) == 1;
    assert DigitRun(s, 5) == 0 && DigitRun(s, 4) == 1;
    assert DigitRun(s, 10) == 0 && DigitRun(s, 9) == 1 && DigitRun(s, 8) == 2 && DigitRun(s, 7) == 3;
  }

  const SpelledExample := "Sep 4, 2025, 2:18:51 AM"

  /** Matching a token list takes one step at a time. */
  lemma MatchStep(s: string, i: nat, toks: seq<Token>, j: nat)
    requires i <= |s| && |toks| > 0 && Step(s, i, toks[0]) == Some(j)
    ensures MatchFrom(s, i, toks) == MatchFrom(s, j, toks[1..])
  {
  }

  /** The example against the pattern, one token per lemma. */
  lemma SpelledExampleStep0(s: string, p: seq<Token>)
    requires s == SpelledExample && p == SpelledPattern
    ensures MatchFrom(s, 0, p) == MatchFrom(s, 3, p[1..])
  {
    assert p[0] == Letters(3);
    assert s[0] == 'S' && s[1] == 'e' && s[2] == 'p';
    MatchStep(s, 0, p, 3);
  }

  lemma SpelledExampleStep1(s: string, p: seq<Token>)
    requires s == SpelledExample && p == SpelledPattern
    ensures MatchFrom(s, 3, p[1..]) == MatchFrom(s, 4, p[2..])
  {
    assert p[1..][1..] == p[2..] && p[1..][0] == Spaces;
    assert s[3] == ' ' && s[4] == '4';
    assert SpaceRun(s, 4) == 0;
    assert SpaceRun(s, 3) == 1;
    MatchStep(s, 3, p[1..], 4);
  }

  lemma SpelledExampleStep2(s: string, p: seq<Token>)
    requires s == SpelledExample && p == SpelledPattern
    ensures MatchFrom(s, 4, p[2..]) == MatchFrom(s, 5, p[3..])
  {
    assert p[2..][1..] == p[3..] && p[2..][0] == Digits(1, 2);
    assert s[4] == '4' && s[5] == ',';
    assert DigitRun(s, 5) == 0;
    assert DigitRun(s, 4) == 1;
    MatchStep(s, 4, p[2..], 5);
  }

  lemma SpelledExampleStep3(s: string, p: seq<Token>)
    requires s == SpelledExample && p == SpelledPattern
    ensures MatchFrom(s, 5, p[3..]) == MatchFrom(s, 6, p[4..])
  {
    assert p[3..][1..] == p[4..] && p[3..][0] == Lit(',');
    assert s[5] == ',';
    MatchStep(s, 5, p[3..], 6);
  }

  lemma SpelledExampleStep4(s: string, p: seq<Token>)
    requires s == SpelledExample && p == SpelledPattern
    ensures MatchFrom(s, 6, p[4..]) == MatchFrom(s, 7, p[5..])
  {
    assert p[4..][1..] == p[5..] && p[4..][0] == Spaces;
    assert s[6] == ' ' && s[7] == '2';
    assert SpaceRun(s, 7) == 0;
    assert SpaceRun(s, 6) == 1;
    MatchStep(s, 6, p[4..], 7);
  }

  lemma SpelledExampleStep5(s: string, p: seq<Token>)
    requires s == SpelledExample && p == SpelledPattern
    ensures MatchFrom(s, 7, p[5..]) == MatchFrom(s, 11, p[6..])
  {
    assert p[5..][1..] == p[6..] && p[5..][0] == Digits(4, 4);
    assert s[7] == '2' && s[8] == '0' && s[9] == '2' && s[10] == '5' && s[11] == ',';
    assert DigitRun(s, 11) == 0;
    assert DigitRun(s, 10) == 1;
    assert DigitRun(s, 9) == 2;
    assert DigitRun(s, 8) == 3;
    assert DigitRun(s, 7) == 4;
    MatchStep(s, 7, p[5..], 11);
  }

  lemma SpelledExampleStep6(s: string, p: seq<Token>)
    requires s == SpelledExample && p == SpelledPattern
    ensures MatchFrom(s, 11, p[6..]) == MatchFrom(s, 12, p[7..])
  {
    assert p[6..][1..] == p[7..] && p[6..][0] == Lit(',');
    assert s[11] == ',';
    MatchStep(s, 11, p[6..], 12);
  }

  lemma SpelledExampleStep7(s: string, p: seq<Token>)
    requires s == SpelledExample && p == SpelledPattern
    ensures MatchFrom(s, 12, p[7..]) == MatchFrom(s, 13, p[8..])
  {
    assert p[7..][1..] == p[8..] && p[7..][0] == Spaces;
    assert s[12] == ' ' && s[13] == '2';
    assert SpaceRun(s, 13) == 0;
    assert SpaceRun(s, 12) == 1;
    MatchStep(s, 12, p[7..], 13);
  }

  lemma SpelledExampleStep8(s: string, p: seq<Token>)
    requires s == SpelledExample && p == SpelledPattern
    ensures MatchFrom(s, 13, p[8..]) == MatchFrom(s, 14, p[9..])
  {
    assert p[8..][1..] == p[9..] && p[8..][0] == Digits(1, 2);
    assert s[13] == '2' && s[14] == ':';
    assert DigitRun(s, 14) == 0;
    assert DigitRun(s, 13) == 1;
    MatchStep(s, 13, p[8..], 14);
  }

  lemma SpelledExampleStep9(s: string, p: seq<Token>)
    requires s == SpelledExample && p == SpelledPattern
    ensures MatchFrom(s, 14, p[9..]) == MatchFrom(s, 15, p[10..])
  {
    assert p[9..][1..] == p[10..] && p[9..][0] == Lit(':');
    assert s[14] == ':';
    MatchStep(s, 14, p[9..], 15);
  }

  lemma SpelledExampleStep10(s: string, p: seq<Token>)
    requires s == SpelledExample && p == SpelledPattern
    ensures MatchFrom(s, 15, p[10..]) == MatchFrom(s, 17, p[11..])
  {
    assert p[10..][1..] == p[11..] && p[10..][0] == Digits(2, 2);
    assert s[15] == '1' && s[16] == '8' && s[17] == ':';
    assert DigitRun(s, 17) == 0;
    assert DigitRun(s, 16) == 1;
    assert DigitRun(s, 15) == 2;
    MatchStep(s, 15, p[10..], 17);
  }

  lemma SpelledExampleStep11(s: string, p: seq<Token>)
    requires s == SpelledExample && p == SpelledPattern
    ensures MatchFrom(s, 17, p[11..]) == MatchFrom(s, 18, p[12..])
  {
    assert p[11..][1..] == p[12..] && p[11..][0] == Lit(':');
    assert s[17] == ':';
    MatchStep(s, 17, p[11..], 18);
  }

  lemma SpelledExampleStep12(s: string, p: seq<Token>)
    requires s == SpelledExample && p == SpelledPattern
    ensures MatchFrom(s, 18, p[12..]) == MatchFrom(s, 20, p[13..])
  {
    assert p[12..][1..] == p[13..] && p[12..][0] == Digits(2, 2);
    assert s[18] == '5' && s[19] == '1' && s[20] == ' ';
    assert DigitRun(s, 20) == 0;
    assert DigitRun(s, 19) == 1;
    assert DigitRun(s, 18) == 2;
    MatchStep(s, 18, p[12..], 20);
  }

  lemma SpelledExampleStep13(s: string, p: seq<Token>)
    requires s == SpelledExample && p == SpelledPattern
    ensures MatchFrom(s, 20, p[13..]) == MatchFrom(s, 21, p[14..])
  {
    assert p[13..][1..] == p[14..] && p[13..][0] == Spaces;
    assert s[20] == ' ' && s[21] == 'A';
    assert SpaceRun(s, 21) == 0;
    assert SpaceRun(s, 20) == 1;
    MatchStep(s, 20, p[13..], 21);
  }

  lemma SpelledExampleMatches(s: string, p: seq<Token>)
    requires s == SpelledExample && p == SpelledPattern
    ensures MatchFrom(s, 0, p) == Some(21)
  {
    SpelledExampleStep0(s, p);
    SpelledExampleStep1(s, p);
    SpelledExampleStep2(s, p);
    SpelledExampleStep3(s, p);
    SpelledExampleStep4(s, p);
    SpelledExampleStep5(s, p);
    SpelledExampleStep6(s, p);
    SpelledExampleStep7(s, p);
    SpelledExampleStep8(s, p);
    SpelledExampleStep9(s, p);
    SpelledExampleStep10(s, p);
    SpelledExampleStep11(s, p);
    SpelledExampleStep12(s, p);
    SpelledExampleStep13(s, p);
    assert p[14..] == [];
  }

  /** The format Camunda shows dates in, as in the source's comment. */
  lemma DateStringExampleSpelled()
    ensures IsDateString(SpelledExample)
  {
    SpelledExampleMatches(SpelledExample, SpelledPattern);
    assert SpelledDate(SpelledExample);
  }

  /** A bare date is not date-looking. */
  lemma DateStringRejectsBareDate()
    ensures !IsDateString("2025-09-05")
  {
    var u := "2025-09-05";
    assert !IsAsciiLetter(u[0]);
    assert SpelledPattern[0] == Letters(3) && LettersFrom(u, 0, 3).None?;
    assert |u| < 19;
    assert u[2] == '2' && u[4] == '-';
    assert DigitRun(u, 4) == 0 && DigitRun(u, 3) == 1 && DigitRun(u, 2) == 2 && DigitRun(u, 1) == 3 && DigitRun(u, 0) == 4;
    assert DigitsFrom(u, 0, 1, 2) == Some(2);
    assert CharAt(u, 2, '/').None?;
  }

  /** An ISO time without seconds is not date-looking, though `isISODateString` accepts it. */
  lemma DateStringRejectsIsoWithoutSeconds()
    ensures !IsDateString("2025-09-05T03:06-06:00")
  {
    var v := "2025-09-05T03:06-06:00";
    assert !IsAsciiLetter(v[0]);
    assert SpelledPattern[0] == Letters(3) && LettersFrom(v, 0, 3).None?;
    assert v[16] == '-';
    assert v[2] == '2' && v[4] == '-';
    assert DigitRun(v, 4) == 0 && DigitRun(v, 3) == 1 && DigitRun(v, 2) == 2 && DigitRun(v, 1) == 3 && DigitRun(v, 0) == 4;
    assert DigitsFrom(v, 0, 1, 2) == Some(2);
    assert CharAt(v, 2, '/').None?;
  }

  // ---------------------------------------------------------------------
  // camundaToForm

  /** `{...v}`: the own enumerable properties of an object; an array spreads into its indices. */
  function Spread(v: Value): (fs: seq<Field>)
    requires IsObjectLike(v)
    ensures v.Obj? ==> fs == v.fields
    ensures v.Arr? ==> |fs| == |v.items| && forall i :: 0 <= i < |fs| ==> fs[i] == Field(NatToString(i), v.items[i])
  {
    match v
    case Obj(fs) => fs
    case Arr(items) => seq(|items|, i requires 0 <= i < |items| => Field(NatToString(i), items[i]))
    case FileRef(_) => []
  }

  predicate LooksLikeJson(s: string)
  {
    StartsWith(s, "[") || StartsWith(s, "{")
  }

  /**
   * One value on the way in: a JSON-looking string is decoded (kept when
   * the parse fails) and never treated as a date; a date-looking string
   * becomes its ISO text when it is a valid date; nothing else changes.
   */
  function ConvertIn(v: Value, parse: string -> Option<Value>, toIso: string -> Option<string>): (r: Value)
    ensures !v.Str? ==> r == v
    ensures v.Str? && LooksLikeJson(v.s) ==> r == parse(v.s).UnwrapOr(v)
    ensures v.Str? && !LooksLikeJson(v.s) && !IsDateString(v.s) ==> r == v
    ensures v.Str? && !LooksLikeJson(v.s) && toIso(v.s).None? ==> r == v
    ensures v.Str? && !LooksLikeJson(v.s) && IsDateString(v.s) && toIso(v.s).Some? ==> r == Str(toIso(v.s).value)
  {
    if v.Str? && LooksLikeJson(v.s) then
      match parse(v.s)
      case Some(p) => p
      case None => v
    else if v.Str? && IsDateString(v.s) then
      match toIso(v.s)
      case Some(iso) => Str(iso)
      case None => v
    else v
  }

  /** The object `camundaToForm` returns: the copy with each entry converted in place. */
  function ToForm(variables: Value, parse: string -> Option<Value>, toIso: string -> Option<string>): (r: Value)
    ensures !IsObjectLike(variables) ==> r == variables
    ensures IsObjectLike(variables) ==> r.Obj? && |r.fields| == |Spread(variables)|
    ensures IsObjectLike(variables) ==> forall i :: 0 <= i < |r.fields| ==>
      r.fields[i] == Field(Spread(variables)[i].key, ConvertIn(Spread(variables)[i].val, parse, toIso))
  {
    if !IsObjectLike(variables) then variables
    else
      var fs := Spread(variables);
      Obj(seq(|fs|, i requires 0 <= i < |fs| => Field(fs[i].key, ConvertIn(fs[i].val, parse, toIso))))
  }

  /** `camundaToForm` keeps the key set and its order, and only string values can change. */
  lemma ToFormKeepsKeys(variables: Value, parse: string -> Option<Value>, toIso: string -> Option<string>)
    requires IsObjectLike(variables)
    ensures Keys(ToForm(variables, parse, toIso).fields) == Keys(Spread(variables))
    ensures forall i :: 0 <= i < |Spread(variables)| ==>
      (ToForm(variables, parse, toIso).fields[i].val != Spread(variables)[i].val ==> Spread(variables)[i].val.Str?)
  {
  }

  /** `camundaToForm`: copies the object and overwrites each entry in turn. */
  method CamundaToForm(variables: Value, parse: string -> Option<Value>, toIso: string -> Option<string>) returns (r: Value)
    ensures r == ToForm(variables, parse, toIso)
  {
    if !IsObjectLike(variables) {
      return variables;
    }
    var source := Spread(variables);
    var converted := source;
    var i := 0;
    while i < |converted|
      invariant 0 <= i <= |converted| == |source|
      invariant forall j :: 0 <= j < i ==> converted[j] == Field(source[j].key, ConvertIn(source[j].val, parse, toIso))
      invariant forall j :: i <= j < |converted| ==> converted[j] == source[j]
    {
      var value := converted[i].val;
      var next := value;
      if value.Str? && (StartsWith(value.s, "[") || StartsWith(value.s, "{")) {
        var parsed := parse(value.s);
        if parsed.Some? {
          next := parsed.value;
        }
      } else if value.Str? && IsDateString(value.s) {
        var iso := toIso(value.s);
        if iso.Some? {
          next := Str(iso.value);
        }
      }
      converted := converted[i := Field(converted[i].key, next)];
      i := i + 1;
    }
    r := Obj(converted);
  }

  // ---------------------------------------------------------------------
  // formToCamunda

  /** What `uploadFile(file)` gives back: a storage id (possibly falsy), or an exception. */
  datatype Upload = Returned(storageId: Value) | Threw

  /**
   * The storage ids the upload loop collects over the files of one
   * reference, in file order, skipping non-files and falsy ids; `None` when
   * an upload throws.
   */
  function UploadAll(entries: seq<Value>, upload: File -> Upload): (r: Option<seq<Value>>)
    ensures r.Some? ==> |r.value| <= |entries| && forall i :: 0 <= i < |r.value| ==> Truthy(r.value[i])
    decreases |entries|
  {
    if |entries| == 0 then Some([])
    else
      match UploadAll(entries[..|entries| - 1], upload)
      case None => None
      case Some(ids) =>
        var e := entries[|entries| - 1];
        if !e.FileRef? then Some(ids)
        else match upload(e.file)
          case Threw => None
          case Returned(id) => if Truthy(id) then Some(ids + [id]) else Some(ids)
  }

  /** The ids are lost exactly when one of the files' uploads throws. */
  lemma {:induction false} UploadAllFailsIffSomeUploadThrows(entries: seq<Value>, upload: File -> Upload)
    ensures UploadAll(entries, upload).None? <==>
      exists i :: 0 <= i < |entries| && entries[i].FileRef? && upload(entries[i].file).Threw?
    decreases |entries|
  {
    if |entries| > 0 {
      var init := entries[..|entries| - 1];
      UploadAllFailsIffSomeUploadThrows(init, upload);
      if exists i :: 0 <= i < |init| && init[i].FileRef? && upload(init[i].file).Threw? {
        var i :| 0 <= i < |init| && init[i].FileRef? && upload(init[i].file).Threw?;
        assert entries[i] == init[i];
      }
      if exists i :: 0 <= i < |entries| && entries[i].FileRef? && upload(entries[i].file).Threw? {
        var i :| 0 <= i < |entries| && entries[i].FileRef? && upload(entries[i].file).Threw?;
        if i < |init| {
          assert init[i] == entries[i];
        }
      }
    }
  }

  /** Files whose uploads all return truthy ids give one id per file, in file order. */
  lemma {:induction false} UploadAllKeepsFileOrder(files: seq<File>, upload: File -> Upload)
    requires forall i :: 0 <= i < |files| ==> upload(files[i]).Returned? && Truthy(upload(files[i]).storageId)
    ensures UploadAll(seq(|files|, i requires 0 <= i < |files| => FileRef(files[i])), upload)
      == Some(seq(|files|, i requires 0 <= i < |files| => upload(files[i]).storageId))
    decreases |files|
  {
    var entries := seq(|files|, i requires 0 <= i < |files| => FileRef(files[i]));
    var ids := seq(|files|, i requires 0 <= i < |files| => upload(files[i]).storageId);
    if |files| > 0 {
      var init := files[..|files| - 1];
      assert forall i :: 0 <= i < |init| ==> init[i] == files[i];
      UploadAllKeepsFileOrder(init, upload);
      assert entries[..|entries| - 1] == seq(|init|, i requires 0 <= i < |init| => FileRef(init[i]));
      var initIds := seq(|init|, i requires 0 <= i < |init| => upload(init[i]).storageId);
      var last := files[|files| - 1];
      assert entries[|entries| - 1] == FileRef(last);
      assert UploadAll(entries[..|entries| - 1], upload) == Some(initIds);
      assert upload(last).Returned? && Truthy(upload(last).storageId);
      assert UploadAll(entries, upload) == Some(initIds + [upload(last).storageId]);
      assert initIds + [upload(last).storageId] == ids;
    } else {
      assert entries == [] && ids == [];
    }
  }

  lemma {:induction false} UploadAllFailurePersists(entries: seq<Value>, k: nat, upload: File -> Upload)
    requires k <= |entries| && UploadAll(entries[..k], upload).None?
    ensures UploadAll(entries, upload).None?
    decreases |entries| - k
  {
    if k < |entries| {
      assert entries[..k + 1][..k] == entries[..k];
      UploadAllFailurePersists(entries, k + 1, upload);
    } else {
      assert entries[..k] == entries;
    }
  }

  /** The files registered under a reference; a missing entry reads as no files. */
  function FilesFor(files: Option<map<string, seq<Value>>>, reference: string): seq<Value>
  {
    if files.Some? && reference in files.value then files.value[reference] else []
  }

  /** The first `Z` replaced by `+0000`, as `iso.replace('Z', '+0000')`. */
  function ReplaceFirstZ(s: string): (r: string)
    ensures 'Z' !in s ==> r == s
    ensures |s| > 0 && s[|s| - 1] == 'Z' && 'Z' !in s[..|s| - 1] ==> r == s[..|s| - 1] + "+0000"
    decreases |s|
  {
    if |s| == 0 then ""
    else if s[0] == 'Z' then "+0000" + s[1..]
    else
      var t := s[1..];
      assert s == [s[0]] + t;
      assert 'Z' !in s ==> 'Z' !in t;
      assert |s| > 1 ==> s[..|s| - 1] == [s[0]] + t[..|t| - 1] && t[|t| - 1] == s[|s| - 1];
      [s[0]] + ReplaceFirstZ(t)
  }

  function DateVariable(iso: string): Value
  {
    Obj([Field("value", Str(ReplaceFirstZ(iso))), Field("type", Str("Date"))])
  }

  /**
   * One value on the way out. It is wrapped as `{value}` except in two
   * cases, where it is left as the raw string: an ISO-looking string that
   * is not a valid date, and a `files::` reference that yields no ids.
   * A valid ISO date becomes a typed `Date` variable; a reference whose
   * uploads give ids becomes `{value: ids}`, and one whose upload throws
   * becomes `{value: reference}`.
   */
  function ConvertOut(v: Value, files: Option<map<string, seq<Value>>>, upload: File -> Upload,
                      toIso: string -> Option<string>): (r: Value)
    ensures r == v <==> v.Str? && (if IsISODateString(v.s) then toIso(v.s).None?
                                   else StartsWith(v.s, "files::") && UploadAll(FilesFor(files, v.s), upload) == Some([]))
    ensures r != v ==> r.Obj? && |r.fields| >= 1 && r.fields[0].key == "value"
    ensures v.Str? && IsISODateString(v.s) && toIso(v.s).Some? ==> r == DateVariable(toIso(v.s).value)
    ensures !v.Str? ==> r == DynamicForm.Wrapped(v)
    ensures v.Str? && !IsISODateString(v.s) && !StartsWith(v.s, "files::") ==> r == DynamicForm.Wrapped(v)
    ensures v.Str? && !IsISODateString(v.s) && StartsWith(v.s, "files::") ==>
      match UploadAll(FilesFor(files, v.s), upload)
      case None => r == DynamicForm.Wrapped(v)
      case Some(ids) => |ids| > 0 ==> r == DynamicForm.Wrapped(Arr(ids))
  {
    if v.Str? && IsISODateString(v.s) then
      match toIso(v.s)
      case Some(iso) => DateVariable(iso)
      case None => v
    else if v.Str? && StartsWith(v.s, "files::") then
      match UploadAll(FilesFor(files, v.s), upload)
      case None => DynamicForm.Wrapped(v)
      case Some(ids) => if |ids| > 0 then DynamicForm.Wrapped(Arr(ids)) else v
    else
      DynamicForm.WrappedDiffers(v);
      DynamicForm.Wrapped(v)
  }

  /** The object `formToCamunda` returns. */
  function ToCamunda(variables: Value, files: Option<map<string, seq<Value>>>, upload: File -> Upload,
                     toIso: string -> Option<string>): (r: Value)
    ensures !IsObjectLike(variables) ==> r == variables
    ensures IsObjectLike(variables) ==> r.Obj? && Keys(r.fields) == Keys(Spread(variables))
    ensures IsObjectLike(variables) ==> forall i :: 0 <= i < |r.fields| ==>
      r.fields[i].val == ConvertOut(Spread(variables)[i].val, files, upload, toIso)
  {
    if !IsObjectLike(variables) then variables
    else
      var fs := Spread(variables);
      Obj(seq(|fs|, i requires 0 <= i < |fs| => Field(fs[i].key, ConvertOut(fs[i].val, files, upload, toIso))))
  }

  /** The upload loop for one `files::` reference. */
  method UploadFiles(theseFiles: seq<Value>, upload: File -> Upload) returns (threw: bool, storageIds: seq<Value>)
    ensures threw <==> UploadAll(theseFiles, upload).None?
    ensures !threw ==> UploadAll(theseFiles, upload) == Some(storageIds)
  {
    storageIds := [];
    threw := false;
    var k := 0;
    while k < |theseFiles|
      invariant 0 <= k <= |theseFiles|
      invariant UploadAll(theseFiles[..k], upload) == Some(storageIds)
    {
      assert theseFiles[..k + 1][..k] == theseFiles[..k];
      var file := theseFiles[k];
      if file.FileRef? {
        var outcome := upload(file.file);
        if outcome.Threw? {
          threw := true;
          UploadAllFailurePersists(theseFiles, k + 1, upload);
          return;
        }
        if Truthy(outcome.storageId) {
          storageIds := storageIds + [outcome.storageId];
        }
      }
      k := k + 1;
    }
    assert theseFiles[..k] == theseFiles;
  }

  /** `formToCamunda`: copies the form data and overwrites each entry in turn, uploading referenced files. */
  method FormToCamunda(variables: Value, files: Option<map<string, seq<Value>>>, upload: File -> Upload,
                       toIso: string -> Option<string>) returns (r: Value)
    ensures r == ToCamunda(variables, files, upload, toIso)
  {
    if !IsObjectLike(variables) {
      return variables;
    }
    var source := Spread(variables);
    var converted := source;
    var i := 0;
    while i < |converted|
      invariant 0 <= i <= |converted| == |source|
      invariant forall j :: 0 <= j < i ==> converted[j] == Field(source[j].key, ConvertOut(source[j].val, files, upload, toIso))
      invariant forall j :: i <= j < |converted| ==> converted[j] == source[j]
    {
      var value := converted[i].val;
      var next: Value;
      if value.Str? && IsISODateString(value.s) {
        var iso := toIso(value.s);
        next := if iso.Some? then DateVariable(iso.value) else value;
      } else if value.Str? && StartsWith(value.s, "files::") {
        var threw, storageIds := UploadFiles(FilesFor(files, value.s), upload);
        if threw {
          next := DynamicForm.Wrapped(value);
        } else if |storageIds| > 0 {
          next := DynamicForm.Wrapped(Arr(storageIds));
        } else {
          next := value;
        }
      } else {
        next := DynamicForm.Wrapped(value);
      }
      converted := converted[i := Field(converted[i].key, next)];
      i := i + 1;
    }
    r := Obj(converted);
    assert Keys(converted) == Keys(source);
  }

  /** The request `completeCamundaTask` is called with. */
  datatype Completion = Completion(camundaId: string, variables: Value)

  /**
   * The submit handler: converts the form data (performing every upload)
   * first, then completes the Camunda task with the converted variables; only a
   * successful completion toggles the stored task, and never a permanent one.
   * `succeeded` is Camunda's answer to `request`.
   */
  method Submit(tasks: Table<TasksApi.Task>, task: Row<TasksApi.Task>, data: Value,
                files: Option<map<string, seq<Value>>>, upload: File -> Upload, toIso: string -> Option<string>,
                succeeded: bool)
    returns (request: Completion, notice: DynamicForm.Notice)
    requires tasks.Valid()
    modifies tasks
    ensures tasks.Valid()
    ensures request == Completion(TasksApi.OrDefault(task.doc.camundaId, ""), ToCamunda(data, files, upload, toIso))
    ensures notice == if succeeded then DynamicForm.Sent else DynamicForm.SendFailed
    ensures succeeded && task.doc.permanent != Some(true) ==>
      match old(tasks.Get(task.id))
      case None => tasks.rows == old(tasks.rows)
      case Some(t) => tasks.rows == Replace(old(tasks.rows), task.id, TasksApi.Toggled(t))
    ensures !succeeded || task.doc.permanent == Some(true) ==> tasks.rows == old(tasks.rows)
  {
    var variables := FormToCamunda(data, files, upload, toIso);
    request := Completion(TasksApi.OrDefault(task.doc.camundaId, ""), variables);
    if !succeeded {
      notice := DynamicForm.SendFailed;
      return;
    }
    if task.doc.permanent != Some(true) {
      TasksApi.ToggleTask(tasks, task.id);
    }
    notice := DynamicForm.Sent;
  }
}
