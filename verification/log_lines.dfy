/** Log lines of a simulated training run: the scripted template, the rewrite
    that stamps each played line with the current wall-clock time, and the
    "last ten lines" view that the status endpoint returns. */
module LogLines {

  /** The nine scripted lines a training run plays back, one per timer firing
      (each written as its bracketed prefix followed by the rest of the line). */
  const TrainingLogsTemplate: seq<string> := [
    "[2026-02-07 14:32:01]" + " Initializing ensemble...",
    "[14:32:05]" + " Loaded 11,248 samples (Kepler+TESS 2026)",
    "[14:32:12]" + " Applying SMOTE-NC → 18,920 balanced samples",
    "[14:32:45]" + " XGBoost round 1/5 – best iter 380",
    "[14:33:10]" + " LightGBM training – early stopping at 420",
    "[14:34:02]" + " CatBoost fit complete",
    "[14:34:55]" + " Attention NN epoch 18/50 – val_loss: 0.214",
    "[14:35:40]" + " Ensemble voting weights optimized",
    "[14:36:15]" + " Evaluation complete – final metrics computed"
  ]

  /** Length of a `[dd:dd:dd]` prefix. */
  const ClockPrefixLength: nat := 10

  /** The `\d` class of a JavaScript regular expression without the `u` flag. */
  predicate IsDigit(c: char) {
    '0' <= c <= '9'
  }

  /** The pattern `^\[\d{2}:\d{2}:\d{2}\]` written as one class per
      character: `d` stands for `\d`, every other character for itself. */
  const ClockPattern: string := "[dd:dd:dd]"

  predicate MatchesClass(c: char, charClass: char) {
    if charClass == 'd' then IsDigit(c) else c == charClass
  }

  /** The line starts with `[dd:dd:dd]`: the regular expression matches. */
  predicate HasClockPrefix(line: string)
    ensures HasClockPrefix(line) <==>
      |line| >= |ClockPattern| &&
      forall k :: 0 <= k < |ClockPattern| ==> MatchesClass(line[k], ClockPattern[k])
  {
    |line| >= ClockPrefixLength &&
    line[0] == '[' && IsDigit(line[1]) && IsDigit(line[2]) && line[3] == ':' &&
    IsDigit(line[4]) && IsDigit(line[5]) && line[6] == ':' &&
    IsDigit(line[7]) && IsDigit(line[8]) && line[9] == ']'
  }

  /** Replaces a leading `[dd:dd:dd]` by `[stamp]`; any other line is returned as it is. */
  function RewritePrefix(line: string, stamp: string): (r: string)
    ensures !HasClockPrefix(line) ==> r == line
    ensures HasClockPrefix(line) ==> |r| == |line| - ClockPrefixLength + |stamp| + 2
    ensures HasClockPrefix(line) ==> Renders(r, line) && StampOf(r, line) == stamp
  {
    if HasClockPrefix(line) then "[" + stamp + "]" + line[ClockPrefixLength..] else line
  }

  /** Independent description of what a played line looks like: when the
      template line has a clock prefix, the played line opens with `[` and
      ends with everything of the template from the prefix's closing `]` on;
      otherwise it is the template line itself. */
  predicate Renders(played: string, template: string) {
    if HasClockPrefix(template) then
      |played| >= |template| - 8 &&
      played[0] == '[' &&
      played[|played| - (|template| - 9)..] == template[9..]
    else
      played == template
  }

  /** The stamp a played line carries, read back from between the brackets. */
  function StampOf(played: string, template: string): (stamp: string)
    requires HasClockPrefix(template) && Renders(played, template)
    ensures |stamp| == |played| - (|template| - 8)
  {
    played[1..|played| - (|template| - 9)]
  }

  /** Conversely to RewritePrefix's contract, every line that renders a
      template line is the rewrite of that line with the stamp read back
      from it: the rewrite touches nothing outside the leading clock. */
  lemma RendersIsRewrite(played: string, template: string)
    requires Renders(played, template)
    ensures HasClockPrefix(template) ==>
              played == RewritePrefix(template, StampOf(played, template))
    ensures !HasClockPrefix(template) ==> forall stamp :: played == RewritePrefix(template, stamp)
  {
  }

  /** The first template line carries a date, not a `[dd:dd:dd]` clock, so it
      is played unchanged; every later line has its clock replaced. */
  lemma TemplatePrefixes(stamp: string)
    ensures |TrainingLogsTemplate| == 9
    ensures RewritePrefix(TrainingLogsTemplate[0], stamp) == TrainingLogsTemplate[0]
    ensures forall k :: 1 <= k < |TrainingLogsTemplate| ==> HasClockPrefix(TrainingLogsTemplate[k])
  {
  }

  /** `Array.prototype.slice(start)`: a negative start counts from the end and
      is clamped at the front, a non-negative one is clamped at the end. */
  function SliceFrom<T>(s: seq<T>, start: int): (r: seq<T>)
    ensures |r| <= |s| && r == s[|s| - |r|..]
    ensures start < 0 ==> |r| == Min(-start, |s|)
    ensures start >= 0 ==> |r| == Max(|s| - start, 0)
  {
    var from := if start < 0 then Max(|s| + start, 0) else Min(start, |s|);
    s[from..]
  }

  /** `logs.slice(-10)`: the most recent ten lines. */
  function RecentLogs(logs: seq<string>): (r: seq<string>)
    ensures |r| == Min(|logs|, 10)
    ensures r == logs[|logs| - |r|..]
    ensures |logs| <= 10 ==> r == logs
  {
    SliceFrom(logs, -10)
  }

  function Min(a: int, b: int): int {
    if a <= b then a else b
  }

  function Max(a: int, b: int): int {
    if a >= b then a else b
  }
}
