/**
 * evaluate: turns a corrected total into one of four verdicts, using three
 * thresholds that depend on the wait tolerance and the crowd level, and
 * renders the verdict, the condition comments and the advice as markdown
 * lines joined by newlines.
 */
module Evaluation {
  import opened Wrappers
  import opened Conditions
  import opened Text

  /** The error a dictionary subscript raises for a key it does not hold. */
  datatype KeyError = KeyError(key: string)

  datatype Thresholds = Thresholds(easy: real, ok: real, tough: real)

  datatype Verdict = VeryEasy | Standard | SomewhatHard | VeryHard {
    function Label(): string {
      match this
      case VeryEasy => "かなりラク"
      case Standard => "ちょうど良い（標準）"
      case SomewhatHard => "やや攻め（疲れやすい）"
      case VeryHard => "かなり攻め（修羅）"
    }

    /** 0 for the easiest verdict up to 3 for the hardest. */
    function Severity(): nat {
      match this
      case VeryEasy => 0
      case Standard => 1
      case SomewhatHard => 2
      case VeryHard => 3
    }

    /** The advice items printed under the verdict. */
    function Advice(): seq<string> {
      match this
      case VeryEasy => VeryEasyAdvice
      case Standard => StandardAdvice
      case SomewhatHard => SomewhatHardAdvice
      case VeryHard => VeryHardAdvice
    }
  }

  // The longer advice and comment lines are written as two shorter literals
  // joined with +: Dafny can show that a short literal holds no newline, which
  // ReportTextLines needs, but not one of this length in a single piece.
  const VeryEasyAdvice: seq<string> := [
    "この組合せは、閑散～通常なら" + "**子連れでも比較的ラク**に回せるライン。",
    "“偶然の産物”（ショー待ち、寄り道、休憩）" + "を楽しむ余白を残せます。"
  ]

  const StandardAdvice: seq<string> := [
    "無理はないですが、混雑日だと" + "**どこかで調整**が必要になりがち。",
    "高得点アトラクションは**朝 or 夜に寄せる**、" + "移動は1エリア集中が安定です。"
  ]

  const SomewhatHardAdvice: seq<string> := [
    "混雑日だと“待ち＋移動＋食事”が重なり、" + "**崩れやすい**プランです。",
    "DPAを使うなら、**一番重い2つだけ**に" + "絞ると費用対効果が出ます。",
    "子連れは休憩（屋内）を" + "先にスケジュール化すると安定します。"
  ]

  const VeryHardAdvice: seq<string> := [
    "混雑日にこの点数は、ほぼ“戦闘編成”。" + "**完走より満足度を優先**した方が" + "幸福度が上がります。",
    "点数の高いものを1つ落として、" + "代わりに“軽い体験（散歩/ショップ/ショー）”" + "を入れるのが吉。",
    "ハッピーエントリーやバケパが無いなら、" + "**先に勝ち筋（朝の導線）を決める**" + "のが必須。"
  ]

  /** The wait-tolerance factor `tol`. */
  function ToleranceFactor(w: WaitTolerance): (f: real)
    ensures 0.90 <= f <= 1.08
    ensures f < 1.00 <==> w == Upto30
    ensures f == 1.00 <==> w == Upto60
  {
    match w
    case Upto30 => 0.90
    case Upto60 => 1.00
    case Upto90 => 1.08
  }

  /** The crowd bump added to every threshold. */
  function CrowdBump(c: Crowd): (bump: int)
    ensures -4 <= bump <= 10
    ensures bump < 0 <==> c == Quiet
    ensures bump == 0 <==> c == Usual
  {
    match c
    case Quiet => -4
    case Usual => 0
    case Busy => 6
    case Packed => 10
  }

  /** The three thresholds: 28, 38 and 48 scaled by the tolerance, each shifted by the crowd bump. */
  function MakeThresholds(w: WaitTolerance, c: Crowd): (t: Thresholds)
    ensures t.easy < t.ok < t.tough
    ensures t.ok - t.easy == 10.0 * ToleranceFactor(w)
    ensures t.tough - t.ok == 10.0 * ToleranceFactor(w)
  {
    var tol := ToleranceFactor(w);
    var bump := CrowdBump(c) as real;
    Thresholds(28.0 * tol + bump, 38.0 * tol + bump, 48.0 * tol + bump)
  }

  /**
   * The thresholds as the comment above the crowd bump in evaluate describes
   * them: the more crowded the day, the stricter, so the bump is taken off
   * the scaled thresholds instead of added to them.
   */
  function IntendedThresholds(w: WaitTolerance, c: Crowd): (t: Thresholds)
    ensures t.easy < t.ok < t.tough
    ensures t.easy == MakeThresholds(w, c).easy - 2.0 * CrowdBump(c) as real
  {
    var tol := ToleranceFactor(w);
    var bump := CrowdBump(c) as real;
    Thresholds(28.0 * tol - bump, 38.0 * tol - bump, 48.0 * tol - bump)
  }

  /** The first threshold the total does not exceed decides the verdict. */
  function Classify(total: real, t: Thresholds): (v: Verdict)
    ensures v == VeryEasy <==> total <= t.easy
    ensures v == VeryHard <==> t.easy < total && t.ok < total && t.tough < total
  {
    if total <= t.easy then VeryEasy
    else if total <= t.ok then Standard
    else if total <= t.tough then SomewhatHard
    else VeryHard
  }

  function WaitComment(w: WaitTolerance): (comment: string)
    ensures NoNewline(comment)
  {
    match w
    case Upto30 => Line2("待ち時間30分縛りなら、", "**“点数を下げる”＝余白を残す**が正義です。")
    case Upto90 => Line2("90分まで許容できるなら、同点数でも成立しやすいです", "（ただし体力は削れます）。")
    case Upto60 => "60分待ちまで許容できる前提で評価しています。"
  }

  function PerkComment(happyEntry: bool, vacap: bool): (comment: string)
    ensures NoNewline(comment)
  {
    match (happyEntry, vacap)
    case (true, true) => Line2("ハッピーエントリー＋バケパは強い。", "**点数の高い攻略も現実的**です。")
    case (true, false) => Line2("ハッピーエントリーがあるなら、", "朝の1～2本で“高得点枠”を先に潰せます。")
    case (false, true) => Line2("バケパがあるなら、時間指定で主要どころを", "押さえやすく、難易度が下がります。")
    case (false, false) => Line2("ハッピーエントリー/バケパなしの場合、", "**朝イチの優先順位**がかなり重要です。")
  }

  /** Two pieces of one line, each free of newlines. */
  function Line2(a: string, b: string): (line: string)
    requires NoNewline(a) && NoNewline(b)
    ensures NoNewline(line)
  {
    NoNewlineConcat(a, b);
    a + b
  }

  function Heading(v: Verdict): string {
    "## 評価：" + v.Label()
  }

  /** The total line; `totalText` stands for the total already formatted with one decimal. */
  function TotalLine(totalText: string): string {
    "**補正後 総合点：" + totalText + " 点**"
  }

  /** One markdown bullet per item, in the items' order. */
  function Bullets(items: seq<string>): (r: seq<string>)
    ensures |r| == |items|
    ensures forall k :: 0 <= k < |items| ==> r[k] == "- " + items[k]
  {
    if |items| == 0 then []
    else Bullets(items[..|items| - 1]) + ["- " + items[|items| - 1]]
  }

  /** The lines of the report, before they are joined. */
  function Report(v: Verdict, totalText: string, w: WaitTolerance, happyEntry: bool, vacap: bool): (lines: seq<string>)
    ensures |lines| == 6 + |v.Advice()|
    ensures lines[0] == Heading(v) && lines[1] == TotalLine(totalText)
  {
    [Heading(v), TotalLine(totalText), ""]
    + [WaitComment(w), PerkComment(happyEntry, vacap)]
    + [""]
    + Bullets(v.Advice())
  }

  /**
   * The line building of evaluate: the two condition comments are collected
   * first, then the heading, total line and blank line, the comments, a
   * blank line and one bullet per advice item.
   */
  method RenderReport(verdict: Verdict, totalText: string, w: WaitTolerance, happyEntry: bool, vacap: bool)
    returns (out: seq<string>)
    ensures out == Report(verdict, totalText, w, happyEntry, vacap)
  {
    var lines: seq<string> := [];
    lines := lines + [WaitComment(w)];
    lines := lines + [PerkComment(happyEntry, vacap)];

    var advice := verdict.Advice();
    out := [Heading(verdict), TotalLine(totalText), ""];
    out := out + lines;
    out := out + [""];
    ghost var head := out;
    assert head == [Heading(verdict), TotalLine(totalText), ""] + [WaitComment(w), PerkComment(happyEntry, vacap)] + [""];
    var i := 0;
    while i < |advice|
      invariant 0 <= i <= |advice|
      invariant out == head + Bullets(advice[..i])
    {
      assert advice[..i + 1][..i] == advice[..i];
      out := out + ["- " + advice[i]];
      i := i + 1;
    }
    assert advice[..i] == advice;
  }

  /**
   * evaluate. The wait tolerance is looked up first and the crowd level
   * second, each raising KeyError for a label it does not know; otherwise
   * the report for the verdict of `total` is returned as one text.
   */
  method Evaluate(total: real, totalText: string, crowd: string, waitTolerance: string, happyEntry: bool, vacap: bool)
    returns (r: Result<string, KeyError>)
    ensures ParseWaitTolerance(waitTolerance) == None ==> r == Failure(KeyError(waitTolerance))
    ensures ParseWaitTolerance(waitTolerance) != None && ParseCrowd(crowd) == None ==> r == Failure(KeyError(crowd))
    ensures ParseWaitTolerance(waitTolerance) != None && ParseCrowd(crowd) != None ==>
      var w, c := ParseWaitTolerance(waitTolerance).value, ParseCrowd(crowd).value;
      r == Success(Join(Report(Classify(total, MakeThresholds(w, c)), totalText, w, happyEntry, vacap)))
  {
    var parsedTolerance := ParseWaitTolerance(waitTolerance);
    if parsedTolerance == None {
      return Failure(KeyError(waitTolerance));
    }
    var w := parsedTolerance.value;
    var parsedCrowd := ParseCrowd(crowd);
    if parsedCrowd == None {
      return Failure(KeyError(crowd));
    }
    var thresholds := MakeThresholds(w, parsedCrowd.value);
    var verdict := Classify(total, thresholds);
    var out := RenderReport(verdict, totalText, w, happyEntry, vacap);
    r := Success(Join(out));
  }

  /** With ordered thresholds, each verdict covers exactly one band of totals. */
  lemma VerdictBands(total: real, w: WaitTolerance, c: Crowd)
    ensures var t := MakeThresholds(w, c);
      && (Classify(total, t) == VeryEasy <==> total <= t.easy)
      && (Classify(total, t) == Standard <==> t.easy < total <= t.ok)
      && (Classify(total, t) == SomewhatHard <==> t.ok < total <= t.tough)
      && (Classify(total, t) == VeryHard <==> t.tough < total)
  {
  }

  /** A larger total never gets a milder verdict. */
  lemma SeverityMonotone(total1: real, total2: real, t: Thresholds)
    requires total1 <= total2
    ensures Classify(total1, t).Severity() <= Classify(total2, t).Severity()
  {
  }

  /** The crowd bump raises every threshold, so for a fixed total a more crowded day never gets a harsher verdict. */
  lemma CrowdBumpNeverHarsher(total: real, w: WaitTolerance, c1: Crowd, c2: Crowd)
    requires c1.Level() <= c2.Level()
    ensures Classify(total, MakeThresholds(w, c2)).Severity() <= Classify(total, MakeThresholds(w, c1)).Severity()
  {
  }

  /** Lower thresholds and a higher total never give a milder verdict. */
  lemma StricterThresholdsNeverMilder(total1: real, total2: real, t1: Thresholds, t2: Thresholds)
    requires total1 <= total2
    requires t2.easy <= t1.easy && t2.ok <= t1.ok && t2.tough <= t1.tough
    ensures Classify(total1, t1).Severity() <= Classify(total2, t2).Severity()
  {
  }

  /** With the bump taken off, a more crowded day has lower thresholds. */
  lemma IntendedThresholdsFall(w: WaitTolerance, c1: Crowd, c2: Crowd)
    requires c1.Level() <= c2.Level()
    ensures IntendedThresholds(w, c2).easy <= IntendedThresholds(w, c1).easy
    ensures IntendedThresholds(w, c2).ok <= IntendedThresholds(w, c1).ok
    ensures IntendedThresholds(w, c2).tough <= IntendedThresholds(w, c1).tough
  {
  }

  /** A longer accepted wait never gets a harsher verdict for the same total and crowd. */
  lemma ToleranceNeverHarsher(total: real, w1: WaitTolerance, w2: WaitTolerance, c: Crowd)
    requires w1.Minutes() <= w2.Minutes()
    ensures Classify(total, MakeThresholds(w2, c)).Severity() <= Classify(total, MakeThresholds(w1, c)).Severity()
  {
  }

  /**
   * The report reads: heading, total line, blank line, one wait-tolerance
   * comment, one perk comment, blank line, then one bullet per advice item
   * (two for the two milder verdicts, three for the two harsher ones).
   */
  lemma ReportLayout(v: Verdict, totalText: string, w: WaitTolerance, happyEntry: bool, vacap: bool)
    ensures var lines := Report(v, totalText, w, happyEntry, vacap);
      && |lines| == 6 + |v.Advice()|
      && lines[0] == Heading(v)
      && lines[1] == TotalLine(totalText)
      && lines[2] == ""
      && lines[3] == WaitComment(w)
      && lines[4] == PerkComment(happyEntry, vacap)
      && lines[5] == ""
      && (forall k :: 6 <= k < |lines| ==> lines[k] == "- " + v.Advice()[k - 6])
    ensures |v.Advice()| == if v.Severity() <= 1 then 2 else 3
  {
  }

  lemma AdviceHasNoNewline(v: Verdict)
    ensures forall k :: 0 <= k < |v.Advice()| ==> NoNewline(v.Advice()[k])
  {
    match v
    case VeryEasy => VeryEasyAdviceHasNoNewline();
    case Standard => StandardAdviceHasNoNewline();
    case SomewhatHard => SomewhatHardAdviceHasNoNewline();
    case VeryHard => VeryHardAdviceHasNoNewline();
  }

  lemma VeryEasyAdviceHasNoNewline()
    ensures forall k :: 0 <= k < |VeryEasyAdvice| ==> NoNewline(VeryEasyAdvice[k])
  {
    assert NoNewline(VeryEasyAdvice[0]);
    assert NoNewline(VeryEasyAdvice[1]);
  }

  lemma StandardAdviceHasNoNewline()
    ensures forall k :: 0 <= k < |StandardAdvice| ==> NoNewline(StandardAdvice[k])
  {
    assert NoNewline(StandardAdvice[0]);
    assert NoNewline(StandardAdvice[1]);
  }

  lemma SomewhatHardAdviceHasNoNewline()
    ensures forall k :: 0 <= k < |SomewhatHardAdvice| ==> NoNewline(SomewhatHardAdvice[k])
  {
    assert NoNewline(SomewhatHardAdvice[0]);
    assert NoNewline(SomewhatHardAdvice[1]);
    assert NoNewline(SomewhatHardAdvice[2]);
  }

  lemma VeryHardAdviceHasNoNewline()
    ensures forall k :: 0 <= k < |VeryHardAdvice| ==> NoNewline(VeryHardAdvice[k])
  {
    assert NoNewline(VeryHardAdvice[0]);
    assert NoNewline(VeryHardAdvice[1]);
    assert NoNewline(VeryHardAdvice[2]);
  }

  lemma ReportLinesHaveNoNewline(v: Verdict, totalText: string, w: WaitTolerance, happyEntry: bool, vacap: bool)
    requires NoNewline(totalText)
    ensures forall k :: 0 <= k < |Report(v, totalText, w, happyEntry, vacap)| ==>
      NoNewline(Report(v, totalText, w, happyEntry, vacap)[k])
  {
    var lines := Report(v, totalText, w, happyEntry, vacap);
    var advice := v.Advice();
    ReportLayout(v, totalText, w, happyEntry, vacap);
    AdviceHasNoNewline(v);
    NoNewlineConcat("## 評価：", v.Label());
    NoNewlineConcat("**補正後 総合点：", totalText);
    NoNewlineConcat("**補正後 総合点：" + totalText, " 点**");
    forall k | 6 <= k < |lines|
      ensures NoNewline(lines[k])
    {
      NoNewlineConcat("- ", advice[k - 6]);
    }
  }

  /** Splitting the returned text at newlines gives back exactly the report's lines. */
  lemma ReportTextLines(v: Verdict, totalText: string, w: WaitTolerance, happyEntry: bool, vacap: bool)
    requires NoNewline(totalText)
    ensures SplitLines(Join(Report(v, totalText, w, happyEntry, vacap))) == Report(v, totalText, w, happyEntry, vacap)
  {
    ReportLinesHaveNoNewline(v, totalText, w, happyEntry, vacap);
    SplitJoin(Report(v, totalText, w, happyEntry, vacap));
  }
}
