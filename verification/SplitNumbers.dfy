/**
 Numbers split over several messages: what the delivered messages of a run show when they are read
 together, and the one way in which a number gets through.
 */
module SplitNumbers {
  import opened Platform
  import opened Moderation
  import opened Messages
  import opened Disguises
  import D = ContactInfoDetector
  import S = SeparatorCollapse
  import P = ContactPatterns
  import W = WordedEmails
  import R = Regex
  import V = WordRewrites
  import B = BlankRewrites

  const HALF_AN_HOUR: Time := 30 * 60 * 1000

  /** Delivered to the conversation by the sender of `last`, at most half an hour before it. */
  predicate Alongside(m: Message, last: Message) {
    m.conversation == last.conversation && m.sender == last.sender && !m.blocked && m.at >= last.at - HALF_AN_HOUR
  }

  predicate Increasing(at: seq<nat>, n: nat) {
    && (forall k :: 0 <= k < |at| ==> at[k] < n)
    && forall j, k :: 0 <= j < k < |at| ==> at[j] < at[k]
  }

  /** Consecutive delivered messages of one sender in one conversation within half an hour, oldest first. */
  ghost predicate Stretch(messages: seq<Message>, at: seq<nat>) {
    && at != [] && Increasing(at, |messages|)
    && var last := messages[at[|at| - 1]];
       && (forall k :: 0 <= k < |at| ==> Alongside(messages[at[k]], last))
       && forall i :: at[0] <= i < at[|at| - 1] && Alongside(messages[i], last) ==> i in at
  }

  function TextsAt(messages: seq<Message>, at: seq<nat>): seq<string>
    requires forall k :: 0 <= k < |at| ==> at[k] < |messages|
  {
    seq(|at|, k requires 0 <= k < |at| => messages[at[k]].content)
  }

  /** How the messages read one after the other. */
  function Read(messages: seq<Message>, at: seq<nat>): string
    requires Increasing(at, |messages|)
  {
    Joined(TextsAt(messages, at))
  }

  // --- the history as a stretch ---

  function Backwards(at: seq<nat>): (r: seq<nat>)
    ensures |r| == |at|
    ensures forall k :: 0 <= k < |at| ==> r[k] == at[|at| - 1 - k]
  {
    seq(|at|, k requires 0 <= k < |at| => at[|at| - 1 - k])
  }

  /** The newest five, newest first, of the messages before `n` that go along with it. */
  ghost predicate Newer(at: seq<nat>, messages: seq<Message>, n: nat)
    requires n < |messages|
  {
    && |at| <= 5
    && (forall k :: 0 <= k < |at| ==> at[k] < n && Alongside(messages[at[k]], messages[n]))
    && (forall j, k :: 0 <= j < k < |at| ==> at[j] > at[k])
    && forall i :: 0 <= i < n && Alongside(messages[i], messages[n]) && i !in at ==>
         |at| == 5 && forall k :: 0 <= k < |at| ==> at[k] > i
  }

  lemma HistoryIsNewer(messages: seq<Message>, n: nat) returns (at: seq<nat>)
    requires n < |messages| && !messages[n].blocked
    ensures Newer(at, messages, n) && Increasing(Backwards(at) + [n], |messages|)
    ensures
      var m := messages[n];
      Together(messages[..n], m.conversation, m.sender, m.content, m.at) == Read(messages, Backwards(at) + [n])
  {
    var m := messages[n];
    var before := messages[..n];
    at := HistoryIsRecent(before, m.conversation, m.sender, m.at);
    var history := RecentBackwards(before, m.conversation, m.sender, m.at, LOOKBACK_MESSAGES);
    assert forall i :: 0 <= i < n ==> before[i] == messages[i];
    assert Contents(history) == TextsAt(messages, Backwards(at));
    assert TextsAt(messages, Backwards(at) + [n]) == TextsAt(messages, Backwards(at)) + [m.content];
  }

  /** The earlier messages of a stretch, newest first, are the newest of the history. */
  lemma {:induction false} StretchIsNewest(messages: seq<Message>, n: nat, at: seq<nat>, back: seq<nat>, k: nat)
    requires n < |messages| && Newer(at, messages, n) && k <= |back| <= 5
    requires forall j :: 0 <= j < |back| ==> back[j] < n && Alongside(messages[back[j]], messages[n])
    requires forall i, j :: 0 <= i < j < |back| ==> back[i] > back[j]
    requires back != [] ==> forall i :: back[|back| - 1] <= i < n && Alongside(messages[i], messages[n]) ==> i in back
    ensures k <= |at| && forall j :: 0 <= j < k ==> at[j] == back[j]
  {
    hide Alongside;
    if k > 0 {
      StretchIsNewest(messages, n, at, back, k - 1);
      var i := back[k - 1];
      assert i !in at ==> |at| == 5;
      assert |at| >= k;
      assert at[k - 1] > i ==> at[k - 1] in back;
    }
  }

  /** A message of the stretch or of the history that precedes it. */
  lemma WholeStretch(messages: seq<Message>, n: nat, at: seq<nat>)
    requires n < |messages| && !messages[n].blocked && Newer(at, messages, n)
    ensures Stretch(messages, Backwards(at) + [n])
    ensures forall i :: 0 <= i < (Backwards(at) + [n])[0] && Alongside(messages[i], messages[n]) ==> |at| == 5
  {
    assert Alongside(messages[n], messages[n]);
    hide Alongside;
    var whole := Backwards(at) + [n];
    forall i | whole[0] <= i < n && Alongside(messages[i], messages[n])
      ensures i in whole
    {
      assert at != [];
      assert whole[0] == at[|at| - 1];
      assert i in at;
      var k :| 0 <= k < |at| && at[k] == i;
      assert whole[|at| - 1 - k] == i;
    }
  }

  // --- reading one text after another ---

  lemma {:induction false} JoinedInTwo(a: seq<string>, b: seq<string>)
    requires a != [] && b != []
    ensures Joined(a + b) == Joined(a) + " " + Joined(b)
  {
    assert (a + b)[1..] == a[1..] + b;
    if |a| > 1 {
      JoinedInTwo(a[1..], b);
      assert a[0] + " " + (Joined(a[1..]) + " " + Joined(b)) == a[0] + " " + Joined(a[1..]) + " " + Joined(b);
    } else {
      assert a[1..] + b == b;
    }
  }

  /** A phone number stands in the text, however it is spelled, disguised or spaced. */
  ghost predicate ShowsNumber(text: string) { exists a: nat, b: nat :: S.SpacedPhone(D.Undisguised(text), a, b) }

  /** The text is blank, dots and dashes from `i` to `j`. */
  predicate GapFrom(text: string, i: nat, j: nat) { i <= j <= |text| && IsGap(text[i..j]) }

  /** The last thing in the text, once its words and look-alikes are figures, is a figure. */
  ghost predicate EndsInFigure(text: string) {
    var t := D.Undisguised(text);
    exists p :: 0 <= p < |t| && '0' <= t[p] <= '9' && GapFrom(t, p + 1, |t|)
  }

  /** The first thing in the text is a phone number. */
  ghost predicate OpensWithNumber(text: string) {
    var t := D.Undisguised(text);
    exists a: nat, b: nat :: S.SpacedPhone(t, a, b) && GapFrom(t, 0, a)
  }

  lemma ApartByBlank(x: string, y: string)
    ensures D.Undisguised(x + " " + y) == D.Undisguised(x) + " " + D.Undisguised(y)
  {
    hide D.Undisguised;
    UndisguisedGap(" ");
    UndisguisedOfConcat(x + " ", y);
    UndisguisedOfConcat(x, " ");
  }

  lemma {:induction false} LastFigure(x: string, p: nat)
    requires p < |x| && R.IsDigit(x[p]) && forall m :: p < m < |x| ==> S.InRun(x[m])
    ensures exists q :: 0 <= q < |x| && '0' <= x[q] <= '9' && GapFrom(x, q + 1, |x|)
    decreases |x| - p
  {
    if m :| p < m < |x| && R.IsDigit(x[m]) {
      LastFigure(x, m);
    } else {
      assert forall m :: p < m < |x| ==> R.IsSeparator(x[m]);
      assert GapFrom(x, p + 1, |x|);
    }
  }

  /** What stands before the run of a number is a gap, unless something other than digits and separators does. */
  lemma GapOrOther(y: string, a: nat, b: nat)
    requires S.SpacedPhone(y, a, b)
    ensures GapFrom(y, 0, a) || exists m :: 0 <= m < a && !S.InRun(y[m])
  {
    if forall m :: 0 <= m < a ==> S.InRun(y[m]) {
      assert forall m :: 0 <= m < a ==> !R.IsDigit(y[m]);
      assert forall m :: 0 <= m < a ==> R.IsSeparator(y[m]);
    }
  }

  /** A number that nothing before it runs into is still one after other text. */
  lemma NumberStays(x: string, y: string, a: nat, b: nat)
    requires S.SpacedPhone(y, a, b)
    requires (exists m :: 0 <= m < a && !S.InRun(y[m])) || forall p :: 0 <= p < |x| && R.IsDigit(x[p]) ==> exists m :: p < m < |x| && !S.InRun(x[m])
    ensures S.SpacedPhone(x + " " + y, |x| + 1 + a, |x| + 1 + b)
  {
    var s, n := x + " " + y, |x| + 1;
    hide S.DigitsOf, S.PhoneDigits, S.InRun, R.IsDigit, R.IsWord, S.OpensRun, S.ClosesRun;
    OpenStays(x, y, a, b);
    CloseStays(x, y, b);
    AloneStays(x, y, a, b);
    RunStays(x, y, a, b);
  }

  lemma RunStays(x: string, y: string, a: nat, b: nat)
    requires a < b <= |y| && R.IsDigit(y[a]) && R.IsDigit(y[b - 1]) && forall k :: a <= k < b ==> S.InRun(y[k])
    ensures
      var s, n := x + " " + y, |x| + 1;
      && s[n + a..n + b] == y[a..b] && R.IsDigit(s[n + a]) && R.IsDigit(s[n + b - 1])
      && forall k :: n + a <= k < n + b ==> S.InRun(s[k])
  {
    var s, n := x + " " + y, |x| + 1;
    hide S.InRun, R.IsDigit;
    assert forall k :: n <= k < |s| ==> s[k] == y[k - n];
  }

  lemma AloneStays(x: string, y: string, a: nat, b: nat)
    requires S.StandsAlone(y, a, b)
    ensures S.StandsAlone(x + " " + y, |x| + 1 + a, |x| + 1 + b)
  {
    var s, n := x + " " + y, |x| + 1;
    assert s[|x|] == ' ' && forall k :: n <= k < |s| ==> s[k] == y[k - n];
    assert !R.IsWord(' ');
    hide R.IsWord;
  }

  lemma OpenStays(x: string, y: string, a: nat, b: nat)
    requires a <= |y| && S.OpensRun(y, a)
    requires (exists m :: 0 <= m < a && !S.InRun(y[m])) || forall p :: 0 <= p < |x| && R.IsDigit(x[p]) ==> exists m :: p < m < |x| && !S.InRun(x[m])
    ensures S.OpensRun(x + " " + y, |x| + 1 + a)
  {
    var s, n := x + " " + y, |x| + 1;
    assert forall k :: 0 <= k < |y| ==> s[n + k] == y[k];
    assert !R.IsDigit(' ');
    hide S.InRun, R.IsDigit;
    forall k | 0 <= k < n + a && R.IsDigit(s[k])
      ensures exists m :: k < m < n + a && !S.InRun(s[m])
    {
      if k >= n {
        var m :| k - n < m < a && !S.InRun(y[m]);
        assert !S.InRun(s[n + m]);
      } else if m :| 0 <= m < a && !S.InRun(y[m]) {
        assert !S.InRun(s[n + m]);
      } else {
        assert k < |x| && s[k] == x[k];
        var m :| k < m < |x| && !S.InRun(x[m]);
        assert !S.InRun(s[m]);
      }
    }
  }

  lemma CloseStays(x: string, y: string, b: nat)
    requires b <= |y| && S.ClosesRun(y, b)
    ensures S.ClosesRun(x + " " + y, |x| + 1 + b)
  {
    var s, n := x + " " + y, |x| + 1;
    assert forall k :: 0 <= k < |y| ==> s[n + k] == y[k];
    hide S.InRun, R.IsDigit;
    forall k | n + b <= k < |s| && R.IsDigit(s[k])
      ensures exists m :: n + b <= m < k && !S.InRun(s[m])
    {
      assert R.IsDigit(y[k - n]);
      var m :| b <= m < k - n && !S.InRun(y[m]);
      assert !S.InRun(s[n + m]);
    }
  }

  /**
   Of two texts that show no number one after the other, the second shows one by itself exactly if it
   opens with it and the first ends in a figure.
   */
  lemma SecondShows(x: string, y: string)
    requires !ShowsNumber(x + " " + y)
    ensures ShowsNumber(y) <==> EndsInFigure(x) && OpensWithNumber(y)
  {
    var u, v := D.Undisguised(x), D.Undisguised(y);
    ApartByBlank(x, y);
    hide D.Undisguised, S.SpacedPhone, GapFrom;
    if ShowsNumber(y) {
      var a: nat, b: nat :| S.SpacedPhone(v, a, b);
      assert !S.SpacedPhone(u + " " + v, |u| + 1 + a, |u| + 1 + b);
      OnlyThere(u, v, a, b);
    }
  }

  lemma OnlyThere(u: string, v: string, a: nat, b: nat)
    requires S.SpacedPhone(v, a, b) && !S.SpacedPhone(u + " " + v, |u| + 1 + a, |u| + 1 + b)
    ensures GapFrom(v, 0, a) && exists p :: 0 <= p < |u| && '0' <= u[p] <= '9' && GapFrom(u, p + 1, |u|)
  {
    GapOrOther(v, a, b);
    hide S.SpacedPhone, S.InRun, GapFrom, R.IsDigit;
    if (exists m :: 0 <= m < a && !S.InRun(v[m])) || forall p :: 0 <= p < |u| && R.IsDigit(u[p]) ==> exists m :: p < m < |u| && !S.InRun(u[m]) {
      NumberStays(u, v, a, b);
      assert false;
    } else {
      var p :| 0 <= p < |u| && R.IsDigit(u[p]) && forall m :: p < m < |u| ==> S.InRun(u[m]);
      LastFigure(u, p);
    }
  }

  // --- over whole runs ---

  lemma ShownIsBlocked(text: string)
    ensures ShowsNumber(text) ==> D.Blocked(text)
  {
    D.SpacedPhoneIsBlocked(text);
  }

  /** The history of a delivered message and the message itself, read together, pass the detector. */
  lemma TogetherPasses(messages: seq<Message>, n: nat)
    requires DeliveriesPassed(messages) && n < |messages| && !messages[n].blocked
    ensures var m := messages[n]; !D.Blocked(Together(messages[..n], m.conversation, m.sender, m.content, m.at))
  {
    var m := messages[n];
    assert PassedAt(messages, n);
    CombinedIsJoined(messages[..n], m.conversation, m.sender, m.content, m.at);
    assert RecentBackwards(messages[..n], m.conversation, m.sender, m.at, LOOKBACK_MESSAGES) == [] ==>
      Combined(messages[..n], m.conversation, m.sender, m.content, m.at) == m.content;
    hide D.Reports, Joined, RecentBackwards, Combined, DeliveriesPassed;
  }

  /** A stretch of at most six messages is the end of its last message's history and that message. */
  lemma StretchEndsWhole(messages: seq<Message>, at: seq<nat>, newer: seq<nat>) returns (earlier: seq<nat>)
    requires Stretch(messages, at) && |at| <= 6 && Newer(newer, messages, at[|at| - 1])
    ensures Backwards(newer) + [at[|at| - 1]] == earlier + at
  {
    var n, front := at[|at| - 1], at[..|at| - 1];
    FrontIsNewest(messages, at, newer);
    hide *;
    earlier := Backwards(newer)[..|newer| - |front|];
    FrontOfBackwards(newer, front);
    assert front + [n] == at;
    assert earlier + front + [n] == earlier + (front + [n]);
  }

  lemma FrontIsNewest(messages: seq<Message>, at: seq<nat>, newer: seq<nat>)
    requires Stretch(messages, at) && |at| <= 6 && Newer(newer, messages, at[|at| - 1])
    ensures |at| - 1 <= |newer| && newer[..|at| - 1] == Backwards(at[..|at| - 1])
  {
    var n, back := at[|at| - 1], Backwards(at[..|at| - 1]);
    hide Alongside;
    if back != [] { StretchBackwards(messages, at, back); }
    StretchIsNewest(messages, n, newer, back, |back|);
    hide *;
    assert newer[..|back|] == back;
  }

  lemma FrontOfBackwards(newer: seq<nat>, front: seq<nat>)
    requires |front| <= |newer| && newer[..|front|] == Backwards(front)
    ensures Backwards(newer) == Backwards(newer)[..|newer| - |front|] + front
  {
    var back, k := Backwards(newer), |newer| - |front|;
    forall i | 0 <= i < |front|
      ensures back[k + i] == front[i]
    {
      assert newer[..|front|][|front| - 1 - i] == newer[|front| - 1 - i];
    }
  }

  lemma StretchBackwards(messages: seq<Message>, at: seq<nat>, back: seq<nat>)
    requires Stretch(messages, at) && back == Backwards(at[..|at| - 1]) && back != []
    ensures forall i :: back[|back| - 1] <= i < at[|at| - 1] && Alongside(messages[i], messages[at[|at| - 1]]) ==> i in back
  {
    hide Alongside;
    forall i | back[|back| - 1] <= i < at[|at| - 1] && Alongside(messages[i], messages[at[|at| - 1]])
      ensures i in back
    {
      var k :| 0 <= k < |at| && at[k] == i;
      assert back[|back| - 1 - k] == i;
    }
  }

  lemma LastIsAlongside(messages: seq<Message>, at: seq<nat>)
    requires Stretch(messages, at)
    ensures !messages[at[|at| - 1]].blocked && Increasing(at, |messages|)
  {
    assert Alongside(messages[at[|at| - 1]], messages[at[|at| - 1]]);
  }

  lemma PartsOfStretch(messages: seq<Message>, earlier: seq<nat>, at: seq<nat>)
    requires Stretch(messages, earlier + at) && at != []
    ensures Increasing(earlier, |messages|) && Increasing(at, |messages|)
    ensures earlier != [] ==> Read(messages, earlier + at) == Read(messages, earlier) + " " + Read(messages, at)
  {
    IncreasingInTwo(earlier, at, |messages|);
    hide Stretch, Increasing, Joined;
    if earlier != [] {
      TextsInTwo(messages, earlier, at);
      JoinedInTwo(TextsAt(messages, earlier), TextsAt(messages, at));
    }
  }

  lemma IncreasingInTwo(earlier: seq<nat>, at: seq<nat>, n: nat)
    requires Increasing(earlier + at, n)
    ensures Increasing(earlier, n) && Increasing(at, n)
  {
    var whole := earlier + at;
    assert forall k :: 0 <= k < |earlier| ==> whole[k] == earlier[k];
    assert forall k :: 0 <= k < |at| ==> whole[|earlier| + k] == at[k];
  }

  lemma TextsInTwo(messages: seq<Message>, earlier: seq<nat>, at: seq<nat>)
    requires Increasing(earlier, |messages|) && Increasing(at, |messages|) && Increasing(earlier + at, |messages|)
    ensures TextsAt(messages, earlier + at) == TextsAt(messages, earlier) + TextsAt(messages, at)
  {
  }

  /** Nothing of the sender comes within half an hour before the last message and before the first. */
  ghost predicate NothingBefore(messages: seq<Message>, at: seq<nat>)
    requires at != [] && Increasing(at, |messages|)
  {
    forall i :: 0 <= i < at[0] ==> !Alongside(messages[i], messages[at[|at| - 1]])
  }

  /**
   What up to six consecutive delivered messages show, over any run: with the messages of the last half hour
   before them, if they are not yet six, they pass the detector; by themselves they show a number exactly if
   they open with it and what came before them ends in a figure.
   */
  lemma StretchesOverRuns(events: seq<MailEvent>, at: seq<nat>) returns (earlier: seq<nat>)
    requires PlausibleRun(EMPTY, events) && Stretch(Run(EMPTY, events).messages, at) && |at| <= 6
    ensures
      var messages := Run(EMPTY, events).messages;
      && Stretch(messages, earlier + at) && Increasing(earlier, |messages|)
      && !D.Blocked(Read(messages, earlier + at))
      && (|earlier + at| == 6 || (|earlier + at| < 6 && NothingBefore(messages, earlier + at)))
      && (ShowsNumber(Read(messages, at))
          <==> earlier != [] && EndsInFigure(Read(messages, earlier)) && OpensWithNumber(Read(messages, at)))
  {
    var messages := Run(EMPTY, events).messages;
    DeliveriesPassOverRuns(events);
    hide Run, PlausibleRun;
    earlier := StretchIn(messages, at);
  }

  lemma StretchIn(messages: seq<Message>, at: seq<nat>) returns (earlier: seq<nat>)
    requires DeliveriesPassed(messages) && Stretch(messages, at) && |at| <= 6
    ensures
      && Stretch(messages, earlier + at) && Increasing(earlier, |messages|)
      && !D.Blocked(Read(messages, earlier + at))
      && (|earlier + at| == 6 || (|earlier + at| < 6 && NothingBefore(messages, earlier + at)))
      && (ShowsNumber(Read(messages, at))
          <==> earlier != [] && EndsInFigure(Read(messages, earlier)) && OpensWithNumber(Read(messages, at)))
  {
    var n := at[|at| - 1];
    LastIsAlongside(messages, at);
    var newer := HistoryIsNewer(messages, n);
    WholeStretch(messages, n, newer);
    TogetherPasses(messages, n);
    hide DeliveriesPassed, Alongside, Together, Joined, ShowsNumber, EndsInFigure, OpensWithNumber, D.Blocked, Read;
    earlier := StretchEndsWhole(messages, at, newer);
    hide Stretch, Newer;
    PartsOfStretch(messages, earlier, at);
    ShownIsBlocked(Read(messages, earlier + at));
    if earlier == [] {
      assert earlier + at == at;
    } else {
      SecondShows(Read(messages, earlier), Read(messages, at));
    }
  }

  /** Six messages, or all of the last half hour, pass the detector when they are read together. */
  lemma FullStretchesPass(events: seq<MailEvent>, at: seq<nat>)
    requires PlausibleRun(EMPTY, events)
    requires
      var messages := Run(EMPTY, events).messages;
      Stretch(messages, at) && (|at| == 6 || (|at| < 6 && NothingBefore(messages, at)))
    ensures !D.Blocked(Read(Run(EMPTY, events).messages, at))
  {
    var messages := Run(EMPTY, events).messages;
    var earlier := StretchesOverRuns(events, at);
    hide Run, PlausibleRun;
    if earlier != [] {
      EarlierIsBefore(messages, earlier, at);
    } else {
      assert earlier + at == at;
    }
  }

  lemma EarlierIsBefore(messages: seq<Message>, earlier: seq<nat>, at: seq<nat>)
    requires Stretch(messages, earlier + at) && earlier != [] && at != [] && Increasing(at, |messages|)
    ensures !NothingBefore(messages, at)
  {
    var whole := earlier + at;
    assert whole[0] == earlier[0] && whole[|earlier|] == at[0] && whole[|whole| - 1] == at[|at| - 1];
    assert Alongside(messages[whole[0]], messages[whole[|whole| - 1]]);
  }

  // --- a number that gets through ---

  /** Figures and single blanks. */
  predicate FiguresAndBlanks(s: string) { forall k :: 0 <= k < |s| ==> '0' <= s[k] <= '9' || s[k] == ' ' }

  lemma {:induction false} PerWordOfFigures(s: string, f: string -> string, i: nat := 0)
    requires i <= |s| && FiguresAndBlanks(s) && forall w :: FiguresAndBlanks(w) ==> f(w) == w
    ensures V.PerWord(s, f, i) == s[i..]
    decreases |s| - i
  {
    if i < |s| {
      var e := V.WordEnd(s, i);
      if R.IsWord(s[i]) {
        V.RunIsNotEmpty(s, i);
        assert FiguresAndBlanks(s[i..e]);
        PerWordOfFigures(s, f, e);
        assert s[i..e] + s[e..] == s[i..];
      } else {
        PerWordOfFigures(s, f, i + 1);
      }
    }
  }

  lemma FiguresStayFigures(w: string)
    requires FiguresAndBlanks(w)
    ensures Figure(w) == w && TokenFigures(w) == w && W.AtSign(w) == w && W.DotSign(w) == w
  {
    assert w != "" ==> w[0] !in "zotfsena" && w[0] != 'd';
    FiguresOnly(w);
  }

  lemma FiguresOnly(w: string)
    requires FiguresAndBlanks(w)
    ensures TokenFigures(w) == w
  {
  }

  lemma FiguresUndisguised(s: string)
    requires FiguresAndBlanks(s)
    ensures D.Undisguised(s) == s && W.Signed(s) == s
  {
    assert R.Lower(s) == s;
    assert s[0..] == s;
    forall w | FiguresAndBlanks(w)
      ensures Figure(w) == w && TokenFigures(w) == w && W.AtSign(w) == w && W.DotSign(w) == w
    {
      FiguresStayFigures(w);
    }
    hide V.PerWord, Figure, TokenFigures, W.AtSign, W.DotSign, R.Lower, FiguresAndBlanks;
    UndisguisedIsTwoLaws(s);
    PerWordOfFigures(s, Figure);
    PerWordOfFigures(s, TokenFigures);
    PerWordOfFigures(s, W.AtSign);
    PerWordOfFigures(s, W.DotSign);
  }

  lemma {:induction false} OneBlankKeeps(s: string)
    requires FiguresAndBlanks(s)
    ensures FiguresAndBlanks(B.OneBlank(s))
    decreases |s|
  {
    if s != "" {
      if R.In(s[0], R.BlankOnly) {
        OneBlankKeeps(B.Without(R.BlankOnly, s[1..]));
      } else {
        OneBlankKeeps(s[1..]);
      }
    }
  }

  lemma FiguresNormalized(s: string)
    requires FiguresAndBlanks(s)
    ensures FiguresAndBlanks(D.NormalizeAtDot(s))
  {
    assert '@' !in s && '.' !in s;
    FiguresUndisguised(s);
    OneBlankKeeps(s);
    hide D.NormalizeAtDot, B.OneBlank, B.Tighten, FiguresAndBlanks;
    W.AtDotLaw(s);
    B.TightenNone(s, '@');
    B.TightenNone(s, '.');
  }

  lemma NoContactInFigures(s: string)
    requires FiguresAndBlanks(s)
    ensures !P.ShowsEmail(s) && !P.ShowsLink(s)
    ensures forall k :: P.IsSocialMedia(k) || P.IsPaymentHandle(k) || P.IsOffPlatform(k) ==> !P.Mentions(s, k)
  {
    assert R.Lower(s) == s;
    forall i, a, d, j
      ensures !P.EmailAt(s, i, a, d, j)
    {
    }
    forall i, a, j
      ensures !P.LinkAt(s, i, a, j)
    {
      if 0 <= i < a <= |s| { assert R.Lower(s[i..a])[0] == s[i]; }
    }
    forall i, d, j
      ensures !P.DomainAt(s, i, d, j)
    {
    }
    forall k | P.IsSocialMedia(k) || P.IsPaymentHandle(k) || P.IsOffPlatform(k)
      ensures !P.Mentions(s, k)
    {
      assert 'a' <= k[0] <= 'z';
      forall i: nat
        ensures !P.IsAt(s, k, i)
      {
        if i + |k| <= |s| { assert s[i..i + |k|][0] == s[i]; }
      }
    }
  }

  /** Figures and blanks are blocked only for the numbers they show. */
  lemma FiguresBlocked(s: string)
    requires FiguresAndBlanks(s)
    ensures D.Blocked(s) <==> P.ShowsGrouped(s) || P.ShowsBare(s) || exists a: nat, b: nat :: S.SpacedPhone(s, a, b)
  {
    FiguresNormalized(s);
    FiguresUndisguised(s);
    hide *;
    NoContactInFigures(s);
    NoContactInFigures(D.NormalizeAtDot(s));
    P.BlockedMeans(s);
  }

  lemma {:induction false} DigitsOfShrinks(s: string)
    ensures |S.DigitsOf(s)| <= |s|
  {
    if s != "" { DigitsOfShrinks(s[1..]); }
  }

  lemma ShortShowsNothing(s: string)
    requires |s| < 10
    ensures !P.ShowsGrouped(s) && !P.ShowsBare(s) && forall a: nat, b: nat :: !S.SpacedPhone(s, a, b)
  {
    forall a: nat, b: nat
      ensures !S.SpacedPhone(s, a, b)
    {
      hide S.DigitsOf;
      if a <= b <= |s| { DigitsOfShrinks(s[a..b]); }
    }
  }

  lemma ShortFiguresPass(s: string)
    requires FiguresAndBlanks(s) && |s| < 10
    ensures !D.Blocked(s)
  {
    hide *;
    FiguresBlocked(s);
    ShortShowsNothing(s);
  }

  const FIRST := "5"
  const SECOND := "904 5"
  const THIRD := "55 1234"
  const WHOLE := "5 904 5 55 1234"
  const SHOWN := "904 5 55 1234"

  lemma DigitsOfSecond()
    ensures S.DigitsOf("904 5 ") == "9045"
  {
  }

  lemma DigitsOfThird()
    ensures S.DigitsOf("55 1234") == "551234"
  {
    hide S.DigitsOf;
    FiguresOfThird();
    S.DigitsOfConcat("55 ", "1234");
    assert "55 " + "1234" == "55 1234" && "55" + "1234" == "551234";
  }

  lemma FiguresOfThird()
    ensures S.DigitsOf("55 ") == "55" && S.DigitsOf("1234") == "1234"
  {
  }

  lemma DigitsOfWhole()
    ensures S.DigitsOf(WHOLE) == "59045551234" && S.DigitsOf(SHOWN) == "9045551234"
  {
    hide S.DigitsOf;
    assert WHOLE == "5 " + SHOWN;
    hide SHOWN, WHOLE;
    DigitsOfFirst();
    DigitsOfShown();
    S.DigitsOfConcat("5 ", SHOWN);
    assert "5" + "9045551234" == "59045551234";
  }

  lemma DigitsOfFirst()
    ensures S.DigitsOf("5 ") == "5"
  {
  }

  lemma DigitsOfShown()
    ensures S.DigitsOf(SHOWN) == "9045551234"
  {
    hide S.DigitsOf;
    assert SHOWN == "904 5 " + "55 1234";
    hide SHOWN;
    DigitsOfSecond();
    DigitsOfThird();
    S.DigitsOfConcat("904 5 ", "55 1234");
    assert "9045" + "551234" == "9045551234";
  }

  lemma WholeRun(a: nat, b: nat)
    requires S.DigitRun(WHOLE, a, b)
    ensures a == 0 && b == |WHOLE|
  {
    assert forall k :: 0 <= k < |WHOLE| ==> S.InRun(WHOLE[k]);
    assert R.IsDigit(WHOLE[0]) && R.IsDigit(WHOLE[|WHOLE| - 1]);
  }

  lemma WholeIsNotSpaced(a: nat, b: nat)
    ensures !S.SpacedPhone(WHOLE, a, b)
  {
    DigitsOfWhole();
    hide S.DigitsOf, S.DigitRun;
    if S.DigitRun(WHOLE, a, b) {
      WholeRun(a, b);
      assert WHOLE[0..|WHOLE|] == WHOLE;
    }
  }

  lemma WholeIsNotGrouped(n: int, j: int)
    ensures !P.SevenAt(WHOLE, n, j) && !P.BareAt(WHOLE, n, j)
  {
    var s := WHOLE;
    assert s[1] == ' ' && s[5] == ' ' && s[7] == ' ' && s[10] == ' ' && |s| == 15;
    assert '0' <= s[0] <= '9' && '0' <= s[2] <= '9' && '0' <= s[3] <= '9' && '0' <= s[4] <= '9' && '0' <= s[6] <= '9';
    assert !P.SeparatorChar(s[0]) && !P.SeparatorChar(s[2]) && !P.SeparatorChar(s[3]) && !P.SeparatorChar(s[4]) && !P.SeparatorChar(s[6]);
    hide WHOLE, P.EdgeAt, P.SeparatorChar;
    assert 0 <= n <= 6 ==> n == 0 || n == 1 || n == 2 || n == 3 || n == 4 || n == 5 || n == 6;
  }

  lemma WholePassesAsText()
    ensures !D.Blocked(WHOLE)
  {
    assert FiguresAndBlanks(WHOLE);
    forall i, a, n, j
      ensures !P.GroupedAt(WHOLE, i, a, n, j)
    {
      WholeIsNotGrouped(n, j);
    }
    forall i, j
      ensures !P.BareAt(WHOLE, i, j)
    {
      WholeIsNotGrouped(i, j);
    }
    hide *;
    forall a: nat, b: nat
      ensures !S.SpacedPhone(WHOLE, a, b)
    {
      WholeIsNotSpaced(a, b);
    }
    assert !P.ShowsGrouped(WHOLE) && !P.ShowsBare(WHOLE) by { NothingShown(WHOLE); }
    FiguresBlocked(WHOLE);
  }

  lemma NothingShown(s: string)
    requires forall i, a, n, j :: !P.GroupedAt(s, i, a, n, j)
    requires forall i, j :: !P.BareAt(s, i, j)
    ensures !P.ShowsGrouped(s) && !P.ShowsBare(s)
  {
    hide P.GroupedAt, P.BareAt;
  }

  lemma ShownIsRun()
    ensures S.DigitRun(SHOWN, 0, |SHOWN|) && S.StandsAlone(SHOWN, 0, |SHOWN|) && FiguresAndBlanks(SHOWN)
  {
  }

  lemma ShownIsNumber()
    ensures ShowsNumber(SHOWN)
  {
    hide D.Undisguised, S.SpacedPhone, S.DigitsOf;
    assert FiguresAndBlanks(SHOWN) && |SHOWN| == 13;
    hide SHOWN;
    ShownIsPhone();
    FiguresUndisguised(SHOWN);
  }

  lemma ShownIsPhone()
    ensures S.SpacedPhone(SHOWN, 0, 13)
  {
    hide S.DigitsOf, S.PhoneDigits;
    assert |SHOWN| == 13 && SHOWN[0..13] == SHOWN;
    hide S.DigitRun, S.StandsAlone, SHOWN;
    ShownIsRun();
    DigitsOfShown();
    IsPhone();
  }

  lemma IsPhone()
    ensures S.PhoneDigits("9045551234")
  {
  }

  predicate Sent(m: Message, tenant: UserId, content: string, now: Time) {
    m.conversation == 0 && m.sender == tenant && m.content == content && !m.blocked && m.at == now
  }

  lemma TogetherOfNone(tenant: UserId, content: string, now: Time)
    ensures Together([], 0, tenant, content, now) == content
  {
    assert Contents([]) + [content] == [content];
  }

  lemma TogetherOfOne(a: Message, tenant: UserId, first: string, content: string, now: Time)
    requires Sent(a, tenant, first, now)
    ensures Together([a], 0, tenant, content, now) == first + " " + content
  {
    var recent := RecentBackwards([a], 0, tenant, now, LOOKBACK_MESSAGES);
    assert [a][..0] == [] && RecentBackwards([], 0, tenant, now, 4) == [];
    assert recent == [a] + [];
    assert Contents(recent) + [content] == [first, content];
    JoinedInTwo([first], [content]);
    assert [first] + [content] == [first, content];
  }

  lemma RecentOfTwo(a: Message, b: Message, tenant: UserId, first: string, second: string, now: Time)
    requires Sent(a, tenant, first, now) && Sent(b, tenant, second, now)
    ensures RecentBackwards([a, b], 0, tenant, now, LOOKBACK_MESSAGES) == [b, a]
  {
    assert [a, b][..1] == [a] && [a][..0] == [] && RecentBackwards([], 0, tenant, now, 3) == [];
    assert RecentBackwards([a], 0, tenant, now, 4) == [a] + [];
  }

  lemma TogetherOfTwo(a: Message, b: Message, tenant: UserId, first: string, second: string, content: string, now: Time)
    requires Sent(a, tenant, first, now) && Sent(b, tenant, second, now)
    ensures Together([a, b], 0, tenant, content, now) == first + " " + (second + " " + content)
  {
    RecentOfTwo(a, b, tenant, first, second, now);
    assert Contents([b, a]) + [content] == [first, second, content];
    hide RecentBackwards, Contents;
    JoinedInTwo([second], [content]);
    JoinedInTwo([first], [second, content]);
    assert [first] + [second, content] == [first, second, content] && [second] + [content] == [second, content];
  }

  /** A mailbox with one conversation of the tenant and no violations. */
  predicate Plain(m: Mail, tenant: UserId) { |m.threads| == 1 && m.threads[0].tenant == tenant && m.records == EMPTY.records }

  lemma Delivers(m: Mail, tenant: UserId, content: string, now: Time) returns (row: Message)
    requires Plain(m, tenant) && !D.Blocked(content) && !D.Blocked(Together(m.messages, 0, tenant, content, now))
    ensures
      var after := Next(m, Compose(0, tenant, content, now, None, None));
      Plain(after, tenant) && after.messages == m.messages + [row] && Sent(row, tenant, content, now)
  {
    row := Message(0, tenant, m.threads[0].landlord, false, content, false, None, now);
    Unstopped(m, tenant, content, now);
    hide D.Blocked, Together;
    DeliversUnstopped(m, tenant, content, now, row);
  }

  lemma Unstopped(m: Mail, tenant: UserId, content: string, now: Time)
    requires Plain(m, tenant) && !D.Blocked(content) && !D.Blocked(Together(m.messages, 0, tenant, content, now))
    ensures Judge(m, 0, tenant, content, now, None).None? && !HeldBack(m, tenant, now)
  {
    hide D.Blocked, Together, Judge;
    StoppedIsJudged(m, 0, tenant, content, now, None);
  }

  lemma DeliversUnstopped(m: Mail, tenant: UserId, content: string, now: Time, row: Message)
    requires Plain(m, tenant) && Judge(m, 0, tenant, content, now, None).None? && !HeldBack(m, tenant, now)
    requires row == Message(0, tenant, m.threads[0].landlord, false, content, false, None, now)
    ensures
      var after := Next(m, Compose(0, tenant, content, now, None, None));
      Plain(after, tenant) && after.messages == m.messages + [row] && Sent(row, tenant, content, now)
  {
    hide Judge, HeldBack, Composed, Ingested, Staffed;
    ComposedMeans(m, 0, tenant, content, now, None, None);
  }

  /** Read after the second message, the third completes a number; read after both, it does not. */
  lemma AllPass()
    ensures !D.Blocked(FIRST) && !D.Blocked(SECOND) && !D.Blocked(THIRD)
    ensures !D.Blocked(FIRST + " " + SECOND) && !D.Blocked(FIRST + " " + (SECOND + " " + THIRD))
  {
    hide D.Blocked;
    assert FIRST + " " + (SECOND + " " + THIRD) == WHOLE;
    WholePassesAsText();
    ShortFiguresPass(FIRST);
    ShortFiguresPass(SECOND);
    ShortFiguresPass(THIRD);
    ShortFiguresPass(FIRST + " " + SECOND);
  }

  /**
   Up to six consecutive messages may show a number: a figure sent before them makes the whole longer than a
   number, and the code judges the whole only.
   */
  lemma SplitNumberGetsThrough(place: Place, tenant: UserId, landlord: UserId, relay: nat, now: Time)
    ensures
      var events := [
        Start(place, tenant, landlord, relay), Compose(0, tenant, FIRST, now, None, None),
        Compose(0, tenant, SECOND, now, None, None), Compose(0, tenant, THIRD, now, None, None)];
      var messages := Run(EMPTY, events).messages;
      PlausibleRun(EMPTY, events) && Stretch(messages, [1, 2]) && ShowsNumber(Read(messages, [1, 2]))
  {
    Starts(place, tenant, landlord, relay);
    ThreePass(Next(EMPTY, Start(place, tenant, landlord, relay)), tenant, now);
    hide Next, Run, PlausibleRun, ShowsNumber, Read, Stretch, FIRST, SECOND, THIRD;
    FourEvents(EMPTY, Start(place, tenant, landlord, relay), Compose(0, tenant, FIRST, now, None, None),
               Compose(0, tenant, SECOND, now, None, None), Compose(0, tenant, THIRD, now, None, None));
  }

  lemma ThreePass(m0: Mail, tenant: UserId, now: Time)
    requires Plain(m0, tenant) && m0.messages == []
    ensures
      var m1 := Next(m0, Compose(0, tenant, FIRST, now, None, None));
      var m2 := Next(m1, Compose(0, tenant, SECOND, now, None, None));
      var messages := Next(m2, Compose(0, tenant, THIRD, now, None, None)).messages;
      Stretch(messages, [1, 2]) && ShowsNumber(Read(messages, [1, 2]))
  {
    AllPass();
    hide *;
    TogetherOfNone(tenant, FIRST, now);
    var a := Delivers(m0, tenant, FIRST, now);
    var m1 := Next(m0, Compose(0, tenant, FIRST, now, None, None));
    assert m1.messages == [a];
    TogetherOfOne(a, tenant, FIRST, SECOND, now);
    var b := Delivers(m1, tenant, SECOND, now);
    var m2 := Next(m1, Compose(0, tenant, SECOND, now, None, None));
    assert m2.messages == [a, b];
    TogetherOfTwo(a, b, tenant, FIRST, SECOND, THIRD, now);
    var c := Delivers(m2, tenant, THIRD, now);
    assert [a, b] + [c] == [a, b, c];
    LastTwoShow(a, b, c, tenant, now);
  }

  lemma Starts(place: Place, tenant: UserId, landlord: UserId, relay: nat)
    ensures var m := Next(EMPTY, Start(place, tenant, landlord, relay)); Plain(m, tenant) && m.messages == []
  {
    hide Composed, Ingested, Staffed;
  }

  lemma FourEvents(m: Mail, a: MailEvent, b: MailEvent, c: MailEvent, d: MailEvent)
    ensures Run(m, [a, b, c, d]) == Next(Next(Next(Next(m, a), b), c), d)
    ensures a.Start? && b.Compose? && c.Compose? && d.Compose? && b.sent.None? && c.sent.None? && d.sent.None? ==> PlausibleRun(m, [a, b, c, d])
  {
    OneEvent(m, a, [b, c, d]);
    OneEvent(Next(m, a), b, [c, d]);
    OneEvent(Next(Next(m, a), b), c, [d]);
    OneEvent(Next(Next(Next(m, a), b), c), d, []);
    NoEvents(Next(Next(Next(Next(m, a), b), c), d));
    hide Next, Run, PlausibleRun;
    assert [a] + [b, c, d] == [a, b, c, d] && [b] + [c, d] == [b, c, d] && [c] + [d] == [c, d] && [d] + [] == [d];
  }

  lemma OneEvent(m: Mail, e: MailEvent, rest: seq<MailEvent>)
    ensures Run(m, [e] + rest) == Run(Next(m, e), rest)
    ensures PlausibleRun(m, [e] + rest) <==> Plausible(m, e) && PlausibleRun(Next(m, e), rest)
  {
    assert ([e] + rest)[1..] == rest;
    hide Next, Plausible;
  }

  lemma NoEvents(m: Mail)
    ensures Run(m, []) == m && PlausibleRun(m, [])
  {
  }

  lemma LastTwoShow(a: Message, b: Message, c: Message, tenant: UserId, now: Time)
    requires Sent(a, tenant, FIRST, now) && Sent(b, tenant, SECOND, now) && Sent(c, tenant, THIRD, now)
    ensures Stretch([a, b, c], [1, 2]) && ShowsNumber(Read([a, b, c], [1, 2]))
  {
    hide ShowsNumber;
    var messages := [a, b, c];
    assert SECOND + " " + THIRD == SHOWN;
    hide SHOWN, FIRST, SECOND, THIRD;
    assert 1 in [1, 2] && [1, 2][1] == 2;
    TextsOfTwo(messages, SECOND, THIRD);
    ShownIsNumber();
  }

  lemma TextsOfTwo(messages: seq<Message>, second: string, third: string)
    requires |messages| == 3 && messages[1].content == second && messages[2].content == third
    ensures Read(messages, [1, 2]) == second + " " + third
  {
    assert TextsAt(messages, [1, 2]) == [second] + [third];
    JoinedInTwo([second], [third]);
  }
}
