/**
 * The deterministic daily number: a rolling 31-polynomial string hash of the
 * `YYYY-MM-DD` date, kept in signed 32 bits, mapped into 1..100.
 */
module DailyChallenge {
  import opened Wrappers
  import opened JsOps

  /** `charCodeAt`: the code of a character (equal to its UTF-16 unit for the date's ASCII). */
  function CharCode(c: char): int {
    c as int
  }

  /**
   * One turn of the loop as JavaScript evaluates it:
   * `hash = ((hash << 5) - hash) + char` and then `hash = hash & hash`.
   * `<<` converts its left operand with ToInt32 and wraps its result;
   * `x & x` is ToInt32(x).
   */
  function HashStep(hash: int, code: int): int {
    var shifted := ToInt32(ToInt32(hash) * 32);
    ToInt32(shifted - hash + code)
  }

  /** The hash after the loop has consumed all of `s`. */
  function HashOf(s: string): (h: int)
    ensures IsInt32(h)
  {
    if s == [] then 0 else HashStep(HashOf(s[..|s| - 1]), CharCode(s[|s| - 1]))
  }

  /** `Math.abs(hash % 100) + 1`, with JavaScript's truncating `%`. */
  function NumberFromHash(h: int): int {
    Abs(JsRem(h, 100)) + 1
  }

  /** The number `generateDailyNumber` yields for a date string. */
  function DailyNumberOf(dateString: string): int {
    NumberFromHash(HashOf(dateString))
  }

  /**
   * `generateDailyNumber(date)`, the date given as the ISO timestamp that
   * `date.toISOString()` produces.
   */
  method GenerateDailyNumber(isoTimestamp: string) returns (n: int)
    ensures n == DailyNumberOf(DatePart(isoTimestamp))
    ensures 1 <= n <= 100
  {
    var dateString := DatePart(isoTimestamp);
    var hash := 0;
    for i := 0 to |dateString|
      invariant IsInt32(hash)
      invariant hash == HashOf(dateString[..i])
    {
      var code := CharCode(dateString[i]);
      hash := ToInt32(ToInt32(hash) * 32) - hash + code;
      hash := ToInt32(hash);
      assert dateString[..i + 1][..i] == dateString[..i];
    }
    assert dateString[..|dateString|] == dateString;
    n := Abs(JsRem(hash, 100)) + 1;
    DailyNumberRange(dateString);
  }

  lemma NegatedMultiple(x: int)
    requires x % TWO_32 == 0
    ensures (-x) % TWO_32 == 0
  {
    var k := x / TWO_32;
    assert -x == (-k) * TWO_32;
  }

  /** On a signed 32-bit hash, one loop turn is `toInt32(hash * 31 + code)`. */
  lemma HashStepIsPolynomial(hash: int, code: int)
    requires IsInt32(hash)
    ensures HashStep(hash, code) == ToInt32(hash * 31 + code)
    ensures IsInt32(HashStep(hash, code))
  {
    ToInt32OfInt32(hash);
    var shifted := ToInt32(hash * 32);
    assert (hash * 32 - shifted) % TWO_32 == 0;
    NegatedMultiple(hash * 32 - shifted);
    assert (shifted - hash + code) - (hash * 31 + code) == -(hash * 32 - shifted);
    ToInt32Congruent(shifted - hash + code, hash * 31 + code);
  }

  /** The hash of a longer string is one polynomial step from the hash of its prefix. */
  lemma HashOfSnoc(s: string, c: char)
    ensures HashOf(s + [c]) == ToInt32(HashOf(s) * 31 + CharCode(c))
  {
    HashOfUnfolds(s, c);
    HashStepIsPolynomial(HashOf(s), CharCode(c));
  }

  /** Appending one character adds one loop turn. */
  lemma HashOfUnfolds(s: string, c: char)
    ensures HashOf(s + [c]) == HashStep(HashOf(s), CharCode(c))
  {
    var t := s + [c];
    assert t[..|t| - 1] == s && t[|t| - 1] == c;
  }

  /** The closed form of the final mapping: `|h| mod 100`, plus one. */
  lemma NumberFromHashClosedForm(h: int)
    ensures NumberFromHash(h) == Abs(h) % 100 + 1
    ensures 1 <= NumberFromHash(h) <= 100
  {
  }

  /** Hashes `h` and `-h` give the same number, because of `abs` over the truncating `%`. */
  lemma NumberFromHashSymmetric(h: int)
    ensures NumberFromHash(-h) == NumberFromHash(h)
  {
    JsRemNegate(h, 100);
  }

  lemma DailyNumberRange(dateString: string)
    ensures 1 <= DailyNumberOf(dateString) <= 100
  {
    NumberFromHashClosedForm(HashOf(dateString));
  }

  /** Two timestamps of the same calendar date give the same number. */
  lemma DailyNumberDependsOnDateOnly(t1: string, t2: string)
    requires DatePart(t1) == DatePart(t2)
    ensures DailyNumberOf(DatePart(t1)) == DailyNumberOf(DatePart(t2))
  {
  }

  /**
   * `hasPlayedToday(lastPlayedDate)`: a missing or empty date means not
   * played; otherwise the date prefixes of now and of the stored timestamp
   * are compared.
   */
  function HasPlayedToday(lastPlayedDate: Option<string>, nowIso: string): bool {
    if !TruthyString(lastPlayedDate) then false
    else DatePart(nowIso) == DatePart(lastPlayedDate.value)
  }

  lemma HasPlayedTodayCases(lastPlayedDate: Option<string>, nowIso: string)
    ensures lastPlayedDate == None ==> !HasPlayedToday(lastPlayedDate, nowIso)
    ensures lastPlayedDate == Some("") ==> !HasPlayedToday(lastPlayedDate, nowIso)
    ensures TruthyString(lastPlayedDate) ==>
              (HasPlayedToday(lastPlayedDate, nowIso) <==> DatePart(nowIso) == DatePart(lastPlayedDate.value))
  {
  }

  /** Playing is recorded per calendar day: the same day is detected whatever its time of day. */
  lemma HasPlayedSameDay(lastPlayed: string, nowIso: string)
    requires lastPlayed != ""
    requires DatePart(lastPlayed) == DatePart(nowIso)
    ensures HasPlayedToday(Some(lastPlayed), nowIso)
  {
  }

  datatype TodayChallenge = TodayChallenge(
    date: string,
    targetNumber: int,
    difficulty: string,
    trials: int)

  /** `getTodayChallenge()`, the current instant given as its ISO timestamp. */
  function GetTodayChallenge(nowIso: string): TodayChallenge {
    TodayChallenge(DatePart(nowIso), DailyNumberOf(DatePart(nowIso)), "medium", 7)
  }

  /** Today's challenge is always medium with 7 trials, and its target is today's number. */
  lemma TodayChallengeShape(nowIso: string)
    ensures GetTodayChallenge(nowIso).difficulty == "medium"
    ensures GetTodayChallenge(nowIso).trials == 7
    ensures GetTodayChallenge(nowIso).date <= nowIso && 'T' !in GetTodayChallenge(nowIso).date
    ensures GetTodayChallenge(nowIso).targetNumber == DailyNumberOf(GetTodayChallenge(nowIso).date)
    ensures 1 <= GetTodayChallenge(nowIso).targetNumber <= 100
  {
    DailyNumberRange(DatePart(nowIso));
  }
}
