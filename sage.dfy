/** The article writer's deterministic parts: the length settings chosen for a requested
    length, and the reading-time estimate stored with each article. */
module Sage {

  /** Target size, prompt description and token budget for one article length. */
  datatype LengthSettings = LengthSettings(targetWords: int, description: string, maxTokens: int)

  /** The settings for `short`, `medium` and `long`; any other requested length gets `medium`'s. */
  function LengthConfig(estimatedLength: string): (c: LengthSettings)
    ensures estimatedLength !in {"short", "long"} ==> c == LengthSettings(1500, "中等文章（1200-2000字）", 3000)
    ensures c.targetWords == (if estimatedLength == "short" then 600 else if estimatedLength == "long" then 3000 else 1500)
    ensures c.maxTokens == (if estimatedLength == "short" then 1500 else if estimatedLength == "long" then 5000 else 3000)
    ensures c.targetWords < c.maxTokens
  {
    match estimatedLength
    case "short" => LengthSettings(600, "简短文章（500-800字）", 1500)
    case "long" => LengthSettings(3000, "深度长文（2500-4000字）", 5000)
    case _ => LengthSettings(1500, "中等文章（1200-2000字）", 3000)
  }

  /** Reading speed in characters per minute: 500 for Chinese and Japanese, 250 words of five
      characters for every other language. */
  function CharsPerMinute(language: string): (cpm: int)
    ensures cpm == if language in {"zh", "zh-tw", "ja"} then 500 else 1250
  {
    if language == "zh" || language == "zh-tw" || language == "ja" then 500 else 250 * 5
  }

  /** `int(a / b)` for a positive `b`: the quotient truncated toward zero. */
  function TruncDiv(a: int, b: int): (q: int)
    requires b > 0
    ensures a >= 0 ==> q == a / b
    ensures a < 0 ==> q <= 0 && q * b >= a > (q - 1) * b
  {
    if a >= 0 then a / b
    else
      var m := (-a) / b;
      assert m * b <= -a < m * b + b;
      assert (-m) * b == -(m * b) && (-m - 1) * b == -(m * b) - b;
      -m
  }

  /** `_estimate_reading_time`: the seconds the text takes at the language's speed, truncated,
      and never under a minute. */
  function EstimateReadingTime(charCount: int, language: string): (seconds: int)
    ensures seconds >= 60
    ensures charCount >= 0 ==> seconds == if (charCount * 60) / CharsPerMinute(language) >= 60
                                           then (charCount * 60) / CharsPerMinute(language) else 60
  {
    var whole := TruncDiv(charCount * 60, CharsPerMinute(language));
    if whole >= 60 then whole else 60
  }

  /** A longer text never takes less time to read. */
  lemma ReadingTimeMonotone(a: int, b: int, language: string)
    requires a <= b
    ensures EstimateReadingTime(a, language) <= EstimateReadingTime(b, language)
  {
    var cpm := CharsPerMinute(language);
    if 0 <= a {
      DivMonotone(a * 60, b * 60, cpm);
    } else if 0 <= b {
      assert TruncDiv(a * 60, cpm) <= 0;
    } else {
      DivMonotone(-b * 60, -a * 60, cpm);
    }
  }

  /** Integer division by a positive divisor preserves order. */
  lemma DivMonotone(x: int, y: int, d: int)
    requires 0 <= x <= y && d > 0
    ensures x / d <= y / d
  {
    var qx, qy := x / d, y / d;
    assert qx * d <= x;
    assert y < qy * d + d;
    assert (qy + 1 - qx) * d == (qy * d + d) - qx * d;
    assert (qy + 1 - qx) * d > 0;
    NonPositiveProduct(qy + 1 - qx, d);
  }

  /** A non-positive factor times a positive one is never positive. */
  lemma NonPositiveProduct(a: int, d: int)
    requires d > 0
    ensures a <= 0 ==> a * d <= 0
  {
    assert a * d == -((-a) * d);
  }
}
