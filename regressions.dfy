/** The one-line message a failing test case gets from its regression record. */
module Regressions {
  import opened Wrappers
  import opened Decimal
  import opened TestData
  import opened Strings

  /** The message of a failing test case that has no regression record. */
  const NeverPassed := "never passed"

  const SecondsPerDay := 86400

  /** `delta.days` of the time between two creation stamps: whole days,
      rounded down. */
  function Days(firstFail: int, lastFail: int): (d: int)
    ensures d * SecondsPerDay <= lastFail - firstFail < (d + 1) * SecondsPerDay
  {
    (lastFail - firstFail) / SecondsPerDay
  }

  /** The plural ending, used only for more than one day. */
  function Plural(days: int): (s: string)
    ensures s == "s" <==> days > 1
    ensures s == "" <==> days <= 1
  {
    if days > 1 then "s" else ""
  }

  function NewFailure(lastPass: string): string
  {
    "new failure (last pass: " + lastPass + ")"
  }

  function FailingSince(days: int, lastPass: string, firstFail: string): (s: string)
    ensures |s| > 18 + |IntToString(days)| + |Plural(days)|
  {
    "failing since " + IntToString(days) + " day" + Plural(days)
      + " (last pass: " + lastPass + ", first fail: " + firstFail + ")"
  }

  /** `_regression_message`: `data[0]` is the last pass, `data[1]` the first
      failure, the last entry the latest failure. Fewer than two entries make
      the indexing fail (None). */
  function RegressionMessage(data: seq<RegressionEntry>): (r: Option<string>)
    ensures r.None? <==> |data| < 2
    ensures |data| == 2 ==> r == Some(NewFailure(data[0].kernel))
  {
    if |data| < 2 then None
    else if |data| == 2 then Some(NewFailure(data[0].kernel))
    else
      var lastPass, firstFail, lastFail := data[0], data[1], data[|data| - 1];
      Some(FailingSince(Days(firstFail.created, lastFail.created), lastPass.kernel, firstFail.kernel))
  }

  /** A regression message is never the message of a case without a record,
      so the two kinds of failure stay distinguishable in the report. */
  lemma MessageIsNotNeverPassed(data: seq<RegressionEntry>)
    ensures RegressionMessage(data) != Some(NeverPassed)
  {
    if |data| == 2 {
      assert NewFailure(data[0].kernel)[2] == 'w' != NeverPassed[2];
    } else if |data| > 2 {
      var d := Days(data[1].created, data[|data| - 1].created);
      assert FailingSince(d, data[0].kernel, data[1].kernel)[0] == 'f' != NeverPassed[0];
    }
  }

  /** Where the pieces of a "failing since" message sit. */
  lemma FailingSincePieces(msg: string, digits: string, plural: string, kernels: string)
    requires msg == "failing since " + digits + " day" + plural + kernels
    ensures var n := |digits|;
      && msg[..14] == "failing since "
      && msg[14..14 + n] == digits
      && msg[14 + n..18 + n] == " day"
      && msg[18 + n..18 + n + |plural|] == plural
      && msg[18 + n + |plural|..] == kernels
  {
    var x1 := "failing since " + digits;
    var x2 := x1 + " day";
    var x3 := x2 + plural;
    assert msg[..|x3|] == x3 && msg[|x3|..] == kernels;
    Split(msg, x2, plural);
    Split(msg, x1, " day");
    Split(msg, "failing since ", digits);
  }

  /** With three entries or more the message reads "failing since N day"
      where N reads back as the whole days from the first to the latest
      failure, and an 's' follows "day" exactly when N is above one. */
  lemma MessageReadsBack(data: seq<RegressionEntry>)
    requires |data| > 2
    ensures var msg, days := RegressionMessage(data).value, Days(data[1].created, data[|data| - 1].created);
      var n := |IntToString(days)|;
      && msg[..14] == "failing since "
      && ParseInt(msg[14..14 + n]) == days
      && msg[14 + n..18 + n] == " day"
      && (msg[18 + n] == 's' <==> days > 1)
  {
    var days := Days(data[1].created, data[|data| - 1].created);
    var kernels := " (last pass: " + data[0].kernel + ", first fail: " + data[1].kernel + ")";
    FailingSincePieces(RegressionMessage(data).value, IntToString(days), Plural(days), kernels);
    IntToStringRoundTrip(days);
  }

  /** With three entries or more the message ends by naming the kernel of the
      last pass (entry 0) and that of the first failure (entry 1). */
  lemma MessageNamesKernels(data: seq<RegressionEntry>)
    requires |data| > 2
    ensures var msg, days := RegressionMessage(data).value, Days(data[1].created, data[|data| - 1].created);
      var n := |IntToString(days)| + |Plural(days)|;
      msg[18 + n..] == " (last pass: " + data[0].kernel + ", first fail: " + data[1].kernel + ")"
  {
    var days := Days(data[1].created, data[|data| - 1].created);
    var kernels := " (last pass: " + data[0].kernel + ", first fail: " + data[1].kernel + ")";
    FailingSincePieces(RegressionMessage(data).value, IntToString(days), Plural(days), kernels);
  }
}
