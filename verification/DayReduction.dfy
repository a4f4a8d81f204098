/** Which days the bounded reduction always brings to one summary, over the drafts and settings the program
    accepts (processing/daily_summary.py, processing/analysis.py). */
module DayReduction {
  import opened Prelude
  import opened Reducing

  // ----- a partial day summary and its checks -----

  datatype Bilingual = Bilingual(ja: string, zhHk: string)

  datatype Point = Point(recordingIndex: nat, text: Bilingual)

  datatype DailyDraft = DailyDraft(overview: Bilingual, keyPoints: seq<Point>, tags: seq<Bilingual>)

  predicate ValidText(t: Bilingual, maxLength: nat) {
    1 <= |t.ja| <= maxLength && 1 <= |t.zhHk| <= maxLength
  }

  ghost predicate ValidDraft(d: DailyDraft) {
    && ValidText(d.overview, 4000)
    && |d.keyPoints| <= 10 && (forall i :: 0 <= i < |d.keyPoints| ==> ValidText(d.keyPoints[i].text, 1000))
    && |d.tags| <= 12 && (forall i :: 0 <= i < |d.tags| ==> ValidText(d.tags[i], 80))
  }

  /** The chunk sizes the settings accept. */
  predicate ValidChunkChars(maxChars: nat) {
    1000 <= maxChars <= 100_000
  }

  // ----- its printed form -----

  function HexDigit(n: nat): char
    requires n < 16
  {
    "0123456789abcdef"[n]
  }

  /** What JSON writes for a character; only quotes, backslashes and control characters are escaped. */
  function Escape(c: char): string {
    if c == '"' then "\\\""
    else if c == '\\' then "\\\\"
    else if c == '\n' then "\\n"
    else if c == '\r' then "\\r"
    else if c == '\t' then "\\t"
    else if c as int == 8 then "\\b"
    else if c as int == 12 then "\\f"
    else if c as int < 32 then "\\u00" + [HexDigit(c as int / 16), HexDigit(c as int % 16)]
    else [c]
  }

  function Escaped(text: string): string {
    if text == "" then "" else Escaped(text[..|text| - 1]) + Escape(text[|text| - 1])
  }

  function Digits(n: nat): string {
    (if n < 10 then "" else Digits(n / 10)) + ["0123456789"[n % 10]]
  }

  /** The members ja and zh_hk. */
  function Fields(t: Bilingual): string {
    "\"ja\": \"" + Escaped(t.ja) + "\", \"zh_hk\": \"" + Escaped(t.zhHk) + "\""
  }

  function PointJson(p: Point): string {
    "{\"recording_index\": " + Digits(p.recordingIndex) + ", " + Fields(p.text) + "}"
  }

  function Listed(items: seq<string>): string {
    if items == [] then ""
    else if |items| == 1 then items[0]
    else Listed(items[..|items| - 1]) + ", " + items[|items| - 1]
  }

  function PointsJson(points: seq<Point>): (r: seq<string>)
    ensures |r| == |points| && forall i :: 0 <= i < |r| ==> r[i] == PointJson(points[i])
  {
    seq(|points|, i requires 0 <= i < |points| => PointJson(points[i]))
  }

  function TagsJson(tags: seq<Bilingual>): (r: seq<string>)
    ensures |r| == |tags| && forall i :: 0 <= i < |r| ==> r[i] == "{" + Fields(tags[i]) + "}"
  {
    seq(|tags|, i requires 0 <= i < |tags| => "{" + Fields(tags[i]) + "}")
  }

  function Json(d: DailyDraft): string {
    "{\"overview\": {" + Fields(d.overview) + "}, \"key_points\": [" + Listed(PointsJson(d.keyPoints))
    + "], \"tags\": [" + Listed(TagsJson(d.tags)) + "]}"
  }

  function Printed(d: DailyDraft): nat {
    |Json(d)|
  }

  function DayLimits(maxChars: nat): Limits<DailyDraft> {
    Limits((d: DailyDraft) => Printed(d), maxChars, None)
  }

  // ----- a valid draft of every size that matters -----

  /** A text that prints at the given length: quotation marks, and one letter if the length is odd. */
  function Fill(printed: nat): (text: string)
    ensures |text| == printed / 2 + printed % 2
    ensures forall i :: 0 <= i < printed / 2 ==> text[i] == '"'
    ensures printed % 2 == 1 ==> text[printed / 2] == 'x'
  {
    seq(printed / 2 + printed % 2, i requires 0 <= i => if i < printed / 2 then '"' else 'x')
  }

  lemma {:induction false} EscapedQuotes(text: string)
    requires forall i :: 0 <= i < |text| ==> text[i] == '"'
    ensures |Escaped(text)| == 2 * |text|
  {
    if text != "" {
      EscapedQuotes(text[..|text| - 1]);
    }
  }

  lemma FillPrints(printed: nat)
    ensures |Escaped(Fill(printed))| == printed
  {
    var text := Fill(printed);
    EscapedQuotes(text[..printed / 2]);
    if printed % 2 == 1 {
      assert text[..|text| - 1] == text[..printed / 2];
    } else {
      assert text[..printed / 2] == text;
    }
  }

  lemma FieldsPrint(ja: nat, zhHk: nat)
    ensures |Fields(Bilingual(Fill(ja), Fill(zhHk)))| == 21 + ja + zhHk
  {
    hide Escaped, Fill;
    FillPrints(ja);
    FillPrints(zhHk);
  }

  function Filled(printed: nat): Bilingual {
    Bilingual(Fill(printed / 2), Fill(printed - printed / 2))
  }

  lemma FilledPrints(printed: nat)
    ensures |Fields(Filled(printed))| == 21 + printed
  {
    FieldsPrint(printed / 2, printed - printed / 2);
  }

  function TenPoints(printed: nat): (points: seq<Point>)
    ensures |points| == 10 && forall i :: 0 <= i < 10 ==> points[i] == Point(0, Filled(printed))
  {
    seq(10, i => Point(0, Filled(printed)))
  }

  lemma PointPrints(printed: nat)
    ensures |PointJson(Point(0, Filled(printed)))| == 45 + printed
  {
    hide Filled, Fields;
    FilledPrints(printed);
    assert Digits(0) == "0";
  }

  lemma {:induction false} ListedLength(items: seq<string>, each: nat)
    requires forall i :: 0 <= i < |items| ==> |items[i]| == each
    ensures |Listed(items)| == if items == [] then 0 else |items| * (each + 2) - 2
  {
    if |items| > 1 {
      ListedLength(items[..|items| - 1], each);
    }
  }

  /** A draft that prints at exactly this length: an overview, and ten key points when that is not enough. */
  function Padded(printed: nat): DailyDraft
    requires 500 <= printed <= 50_001
  {
    if printed <= 15_000 then DailyDraft(Filled(printed - 67), [], [])
    else
      var each := (printed - 14_000) / 10;
      DailyDraft(Filled(printed - 67 - 10 * (45 + each) - 18), TenPoints(each), [])
  }

  lemma DraftPrints(overview: nat, each: Option<nat>)
    ensures var d := DailyDraft(Filled(overview), if each.Some? then TenPoints(each.value) else [], []);
            Printed(d) == 67 + overview + if each.Some? then 10 * (45 + each.value) + 18 else 0
  {
    hide Filled, Fields, PointJson, Listed;
    FilledPrints(overview);
    ListedLength(TagsJson([]), 0);
    if each.Some? {
      PointPrints(each.value);
      ListedLength(PointsJson(TenPoints(each.value)), 45 + each.value);
    } else {
      ListedLength(PointsJson([]), 0);
    }
  }

  lemma FilledIsValid(printed: nat, maxLength: nat)
    requires 2 <= printed <= 4 * maxLength - 2
    ensures ValidText(Filled(printed), maxLength)
  {
  }

  /** The program's checks accept it, and it prints at that length. */
  lemma PaddedFits(printed: nat)
    requires 500 <= printed <= 50_001
    ensures ValidDraft(Padded(printed)) && Printed(Padded(printed)) == printed
  {
    hide Filled, Printed, ValidText;
    if printed <= 15_000 {
      DraftPrints(printed - 67, None);
      FilledIsValid(printed - 67, 4000);
    } else {
      var each := (printed - 14_000) / 10;
      DraftPrints(printed - 67 - 10 * (45 + each) - 18, Some(each));
      FilledIsValid(printed - 67 - 10 * (45 + each) - 18, 4000);
      FilledIsValid(each, 1000);
    }
  }

  // ----- exactly when six passes are enough -----

  ghost predicate AllValid(drafts: seq<DailyDraft>) {
    forall i :: 0 <= i < |drafts| ==> ValidDraft(drafts[i])
  }

  /** Every request is answered, with a draft the program accepts. */
  ghost predicate AnswersValidly(reply: (nat, nat, seq<DailyDraft>) -> Result<DailyDraft>) {
    NeverFails(reply) && forall pass: nat, k: nat, group: seq<DailyDraft> :: ValidDraft(reply(pass, k, group).value)
  }

  /** Whatever the partial summaries and the replies, n of them end in one. */
  ghost predicate AlwaysConverges(n: nat, maxChars: nat) {
    forall drafts: seq<DailyDraft>, reply: (nat, nat, seq<DailyDraft>) -> Result<DailyDraft> ::
      |drafts| == n && AllValid(drafts) && AnswersValidly(reply) ==>
        DayResult(DayLimits(maxChars), drafts, reply).Success?
  }

  /** For every chunk size n > 7 partial summaries of valid sizes, and valid replies, do not converge. */
  lemma SomeDayDoesNotConverge(n: nat, maxChars: nat)
    returns (drafts: seq<DailyDraft>, reply: (nat, nat, seq<DailyDraft>) -> Result<DailyDraft>)
    requires ValidChunkChars(maxChars) && n > MAX_REDUCE_PASSES + 1
    ensures |drafts| == n && AllValid(drafts) && AnswersValidly(reply)
    ensures DayResult(DayLimits(maxChars), drafts, reply) == Failure("lmstudio_daily_summary_not_converging")
  {
    hide Padded, Printed, ValidDraft;
    var small, large := Padded(maxChars / 2), Padded(maxChars / 2 + 1);
    PaddedFits(maxChars / 2);
    PaddedFits(maxChars / 2 + 1);
    drafts, reply := Slow(small, large, n), SlowReply(small, large);
    EightMayNotConverge(DayLimits(maxChars), small, large, n);
  }

  /** Six passes always bring a day's n partial summaries to one if and only if n is at most seven. */
  lemma ConvergesIffAtMostSeven(n: nat, maxChars: nat)
    requires ValidChunkChars(maxChars) && n >= 1
    ensures AlwaysConverges(n, maxChars) <==> n <= MAX_REDUCE_PASSES + 1
  {
    hide DayResult, DayLimits, AllValid;
    if n <= MAX_REDUCE_PASSES + 1 {
      forall drafts: seq<DailyDraft>, reply: (nat, nat, seq<DailyDraft>) -> Result<DailyDraft>
        | |drafts| == n && AllValid(drafts) && AnswersValidly(reply)
        ensures DayResult(DayLimits(maxChars), drafts, reply).Success?
      {
        SevenAlwaysConverge(DayLimits(maxChars), drafts, reply);
      }
    } else {
      var drafts, reply := SomeDayDoesNotConverge(n, maxChars);
    }
  }
}
