/** The score settings `build_midi` reads from the metadata before compiling (main.py lines 179-188). */
module Config {
  import opened Results
  import opened Text
  import opened Tables
  import opened Utils

  // ------------------------------------------------------------------
  // Python's `&` on unbounded two's-complement integers

  function Abs(x: int): nat { if x < 0 then -x else x }

  /**
   * `a & b`, bit by bit from the least significant: `0 & b` is 0, `-1 & b`
   * is `b`, and otherwise the low bits combine and the rest shift right
   * (floor division by 2, which is what `>>` does on negative numbers too).
   */
  function BitAnd(a: int, b: int): (r: int)
    ensures a >= 0 ==> 0 <= r <= a
    decreases Abs(a)
  {
    if a == 0 || b == 0 then 0
    else if a == -1 then b
    else if b == -1 then a
    else 2 * BitAnd(a / 2, b / 2) + (a % 2) * (b % 2)
  }

  /** 1, 2, 4, 8, ... */
  predicate IsPowerOfTwo(n: int)
    decreases if n > 0 then n else 0
  {
    n == 1 || (n > 1 && n % 2 == 0 && IsPowerOfTwo(n / 2))
  }

  lemma {:induction false} BitAndSelf(a: nat)
    ensures BitAnd(a, a) == a
    decreases a
  {
    if a != 0 {
      BitAndSelf(a / 2);
      assert (a % 2) * (a % 2) == a % 2;
    }
  }

  lemma {:induction false} BitAndNegative(a: int, b: int)
    requires a < 0 && b < 0
    ensures BitAnd(a, b) < 0
    decreases Abs(a)
  {
    if a != -1 && b != -1 {
      BitAndNegative(a / 2, b / 2);
      assert (a % 2) * (b % 2) <= 1;
    }
  }

  /** `den & (den - 1) == 0` holds exactly for 0 and the positive powers of two. */
  lemma {:induction false} PowerOfTwoTest(d: int)
    ensures BitAnd(d, d - 1) == 0 <==> d == 0 || IsPowerOfTwo(d)
    decreases Abs(d)
  {
    if d < 0 {
      BitAndNegative(d, d - 1);
    } else if d >= 2 {
      var m := d / 2;
      if d % 2 == 0 {
        assert (d - 1) / 2 == m - 1 && (d - 1) % 2 == 1;
        assert BitAnd(d, d - 1) == 2 * BitAnd(m, m - 1);
        PowerOfTwoTest(m);
      } else {
        assert (d - 1) / 2 == m && (d - 1) % 2 == 0;
        assert BitAnd(d, d - 1) == 2 * BitAnd(m, m);
        BitAndSelf(m);
      }
    }
  }

  // ------------------------------------------------------------------
  // Reading the settings

  datatype Settings = Settings(unit: real, tempo: int, key: string, num: int, den: int, beatsPerMeasure: real)

  function Get(meta: map<string, string>, k: string, default: string): string {
    if k in meta then meta[k] else default
  }

  /** `DUR2BEAT.get(UNIT.lower(), 1)`: the beats of the default duration. */
  function UnitOf(meta: map<string, string>): (u: real)
    ensures u > 0.0
  {
    match DurToBeat(LowerStr(Get(meta, "UNIT", "q")))
    case Some(b) => b
    case None => 1.0
  }

  /** `int(TEMPO)`, 120 without a header. */
  function TempoOf(meta: map<string, string>): Result<int> {
    if "TEMPO" in meta then
      match ParseInt(meta["TEMPO"])
      case Some(t) => Ok(t)
      case None => Err(ValueError(BadTempo))
    else Ok(120)
  }

  /** `_norm_key(KEY)`, then the key must have a pitch. */
  function KeyOf(name: string): (r: Result<string>)
    ensures r.Ok? ==> KnownKey(r.value)
  {
    match NormKey(name)
    case Err(e) => Err(e)
    case Ok(k) => if KnownKey(k) then Ok(k) else Err(ValueError(UnsupportedKey))
  }

  /** Unpacking `int(x) for x in TIME.split('/')` into exactly two integers. */
  function TimeOf(s: string): Result<(int, int)> {
    var parts := SplitOn(s, '/');
    match ParseInt(parts[0])
    case None => Err(ValueError(BadTime))
    case Some(num) =>
      if |parts| == 1 then Err(ValueError(BadTime))
      else match ParseInt(parts[1])
        case None => Err(ValueError(BadTime))
        case Some(den) => if |parts| > 2 then Err(ValueError(BadTime)) else Ok((num, den))
  }

  /** The settings, or the first error raised reading them, in the source's order. */
  function SettingsOf(meta: map<string, string>): Result<Settings> {
    var unit := UnitOf(meta);
    match TempoOf(meta)
    case Err(e) => Err(e)
    case Ok(tempo) =>
      match KeyOf(Get(meta, "KEY", "C"))
      case Err(e) => Err(e)
      case Ok(key) =>
        match TimeOf(Get(meta, "TIME", "4/4"))
        case Err(e) => Err(e)
        case Ok(t) => WithTime(unit, tempo, key, t.0, t.1)
  }

  /** The checks on the two numbers of `TIME`, then `ts_num * 4 / ts_den` beats per measure. */
  function WithTime(unit: real, tempo: int, key: string, num: int, den: int): Result<Settings> {
    if BitAnd(den, den - 1) != 0 then Err(ValueError(TimeNotPowerOfTwo))
    else if den == 0 then Err(ZeroDivisionError)
    else Ok(Settings(unit, tempo, key, num, den, (num * 4) as real / den as real))
  }

  predicate ValidSettings(s: Settings) {
    s.unit > 0.0 && KnownKey(s.key) && s.den > 0 && IsPowerOfTwo(s.den)
    && s.beatsPerMeasure == (s.num * 4) as real / s.den as real
  }

  /** The time checks accept exactly a positive power-of-two denominator; zero passes the bit test and then divides by zero. */
  lemma WithTimeAccepts(unit: real, tempo: int, key: string, num: int, den: int)
    ensures WithTime(unit, tempo, key, num, den).Ok? <==> den > 0 && IsPowerOfTwo(den)
    ensures WithTime(unit, tempo, key, num, den) == Err(ZeroDivisionError) <==> den == 0
  {
    PowerOfTwoTest(den);
  }

  /** Whatever reads is usable: a positive unit, a known key, a power-of-two denominator. */
  lemma {:induction false} SettingsValid(meta: map<string, string>)
    requires SettingsOf(meta).Ok?
    ensures ValidSettings(SettingsOf(meta).value)
  {
    var t := TimeOf(Get(meta, "TIME", "4/4")).value;
    WithTimeAccepts(UnitOf(meta), TempoOf(meta).value, KeyOf(Get(meta, "KEY", "C")).value, t.0, t.1);
  }

  /** The default `TIME` reads as four beats of a quarter. */
  lemma DefaultTime()
    ensures TimeOf("4/4") == Ok((4, 4))
  {
    assert IndexOf("4/4", '/') == 1;
    assert IndexOf("4", '/') == 1;
    assert "4/4"[..1] == "4" && "4/4"[2..] == "4";
    assert SplitOn("4", '/') == ["4"];
    assert SplitOn("4/4", '/') == ["4", "4"];
    assert ParseInt("4") == Some(4) by { StripNoSpaceEnds("4"); }
  }

  /** The default `KEY` is C itself. */
  lemma DefaultKey()
    ensures KeyOf("C") == Ok("C")
  {
    assert Strip("C") == "C" by { StripNoSpaceEnds("C"); }
    assert NormKey("C") == Ok("C");
    assert KnownKey("C");
  }

  /** Without headers the score is in C, 4/4, quarter-note unit, 120 beats per minute. */
  lemma DefaultSettings()
    ensures SettingsOf(map[]) == Ok(Settings(1.0, 120, "C", 4, 4, 4.0))
  {
    assert LowerStr("q") == "q";
    assert UnitOf(map[]) == 1.0;
    DefaultKey();
    DefaultTime();
    assert BitAnd(2, 1) == 0 && BitAnd(4, 3) == 0;
    assert WithTime(1.0, 120, "C", 4, 4) == Ok(Settings(1.0, 120, "C", 4, 4, 4.0));
  }

  /** `Cb` normalises but has no pitch, so it is refused. */
  lemma {:induction false} FlatCRefused()
    ensures KeyOf("Cb") == Err(ValueError(UnsupportedKey))
  {
    StripNoSpaceEnds("Cb");
    assert NormKey("Cb") == Ok("Cb");
    MissingEnharmonics();
  }
}
