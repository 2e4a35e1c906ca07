/** The records the pipeline passes between stages and to its collaborators. */
module Items {
  import opened Wrappers

  /**
   * One entry of a parsed feed, as `feedparser` yields it: `publishedParsed`
   * is the entry's `published_parsed` after `time.mktime` and
   * `datetime.fromtimestamp`, as naive local seconds (absent or empty in the
   * feed gives `None`); `summary` is absent when the feed has none.
   */
  datatype Entry = Entry(title: string, link: string, publishedParsed: Option<int>, summary: Option<string>)

  /**
   * An article record (the dicts saved to the checkpoint files): `published`
   * is the `%Y-%m-%d` text, `category` is `None` until classified.
   */
  datatype Item = Item(title: string, link: string, content: string, published: string, category: Option<string>)

  /** One entry of `llm_clients` in the configuration (`verify_ssl` defaults to true). */
  datatype Endpoint = Endpoint(name: string, apiBase: string, apiKey: string, model: string, verifySsl: bool)

  /**
   * What a prompt embeds: the classification prompt carries the article's
   * title, its first 500 characters of content and the topic list; the
   * summary prompt carries the joined article blocks of one topic.
   */
  datatype Prompt =
    | ClassifyPrompt(title: string, excerpt: string, topics: seq<string>)
    | SummaryPrompt(articlesContent: string)

  /**
   * The text-generation collaborator: the raw `choices[0].message.content`
   * that endpoint `e` returns for prompt `p`, or `None` when the request
   * fails or the answer lacks those fields.
   */
  type Oracle = (Endpoint, Prompt) -> Option<string>

  const SecondsPerDay: int := 86400

  /** Decimal digits of `n`, without leading zeros (`"0"` for zero). */
  function Digits(n: nat): string
  {
    if n < 10 then [(48 + n) as char] else Digits(n / 10) + [(48 + n % 10) as char]
  }

  /** `n` in decimal, left-padded with zeros to `width` characters. */
  function ZeroPad(n: int, width: nat): (r: string)
    ensures |r| >= width
  {
    var d := Digits(if n < 0 then -n else n);
    (if n < 0 then "-" else "") + (if |d| >= width then d else seq(width - |d|, _ => '0') + d)
  }

  function Pow10(k: nat): nat
  {
    if k == 0 then 1 else 10 * Pow10(k - 1)
  }

  predicate IsDigit(c: char)
  {
    '0' <= c <= '9'
  }

  /** The number a text of decimal digits reads as, leading zeros allowed. */
  function DecimalValue(s: string): int
  {
    if s == [] then 0 else 10 * DecimalValue(s[..|s| - 1]) + (s[|s| - 1] as int - 48)
  }

  lemma {:induction false} DigitsValue(n: nat)
    ensures DecimalValue(Digits(n)) == n
    ensures forall i :: 0 <= i < |Digits(n)| ==> IsDigit(Digits(n)[i])
  {
    if n >= 10 {
      var d := Digits(n / 10);
      DigitsValue(n / 10);
      assert (d + [(48 + n % 10) as char])[..|d|] == d;
    }
  }

  lemma {:induction false} DigitsFit(n: nat, k: nat)
    requires 1 <= k && n < Pow10(k)
    ensures |Digits(n)| <= k
  {
    if n >= 10 {
      assert Pow10(1) == 10;
      assert k >= 2;
      assert n / 10 < Pow10(k - 1);
      DigitsFit(n / 10, k - 1);
    }
  }

  /** Leading zeros do not change the number a text reads as. */
  lemma {:induction false} LeadingZeros(z: string, d: string)
    requires forall i :: 0 <= i < |z| ==> z[i] == '0'
    ensures DecimalValue(z + d) == DecimalValue(d)
    decreases |z| + |d|
  {
    if d == [] {
      assert z + d == z;
      if z != [] {
        LeadingZeros(z[..|z| - 1], []);
        assert z[..|z| - 1] + [] == z[..|z| - 1];
      }
    } else {
      assert (z + d)[..|z + d| - 1] == z + d[..|d| - 1];
      LeadingZeros(z, d[..|d| - 1]);
    }
  }

  /**
   * A non-negative number is padded to a text of digits that reads back as
   * the number, and to exactly `width` characters when it fits in them.
   */
  lemma ZeroPadValue(n: int, width: nat)
    requires 0 <= n
    ensures DecimalValue(ZeroPad(n, width)) == n
    ensures forall i :: 0 <= i < |ZeroPad(n, width)| ==> IsDigit(ZeroPad(n, width)[i])
    ensures 1 <= width && n < Pow10(width) ==> |ZeroPad(n, width)| == width
  {
    var d := Digits(n);
    DigitsValue(n);
    var r := ZeroPad(n, width);
    assert r == if |d| >= width then d else seq(width - |d|, _ => '0') + d;
    if |d| < width {
      LeadingZeros(seq(width - |d|, _ => '0'), d);
    }
    if 1 <= width && n < Pow10(width) {
      DigitsFit(n, width);
    }
  }

  /** The proleptic Gregorian (year, month, day) of a day count since 1970-01-01. */
  function CivilFromDays(days: int): (int, int, int)
  {
    var z := days + 719468;
    var era := z / 146097;
    var doe := z - era * 146097;
    var yoe := (doe - doe / 1460 + doe / 36524 - doe / 146096) / 365;
    var doy := doe - (365 * yoe + yoe / 4 - yoe / 100);
    var mp := (5 * doy + 2) / 153;
    var d := doy - (153 * mp + 2) / 5 + 1;
    var m := if mp < 10 then mp + 3 else mp - 9;
    (if m <= 2 then yoe + era * 400 + 1 else yoe + era * 400, m, d)
  }

  /** `strftime("%Y-%m-%d")` of a naive datetime given in seconds. */
  function FormatDate(stamp: int): (r: string)
    ensures |r| >= 10
  {
    var (y, m, d) := CivilFromDays(stamp / SecondsPerDay);
    ZeroPad(y, 4) + "-" + ZeroPad(m, 2) + "-" + ZeroPad(d, 2)
  }
}
