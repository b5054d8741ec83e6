/** AboutPageViewModel: the hidden developer section that seven taps on the version label
    unlock, the developer-mode switch that hides it again, and the bounded number of debug
    log lines the page asks for. */
module AboutPage {
  const UnlockTaps: int := 7
  const UnlockedMessage: string := "\U{1F513} Developer Mode aktiverat!"
  const UnlockedLog: string := "\U{1F513} Developer Mode uppl\U{E5}st!"

  /** The progress text for a tap count between three and six: how many taps are left. */
  function ProgressMessageFor(count: int): (r: string)
    requires 3 <= count < UnlockTaps
    ensures count == 6 <==> r == "\U{1F513} Ett steg kvar..."
    ensures count < 6 ==> r == "\U{1F513} " + [('0' as int + (UnlockTaps - count)) as char] + " steg kvar..."
  {
    var remaining := UnlockTaps - count;
    if remaining == 1 then "\U{1F513} Ett steg kvar..."
    else "\U{1F513} " + [('0' as int + remaining) as char] + " steg kvar..."
  }

  /** Different counts give different texts, so the text always tells the remaining taps. */
  lemma ProgressMessagesDistinct(c1: int, c2: int)
    requires 3 <= c1 < UnlockTaps && 3 <= c2 < UnlockTaps && c1 != c2
    ensures ProgressMessageFor(c1) != ProgressMessageFor(c2)
  {
    assert ProgressMessageFor(c1)[2] != ProgressMessageFor(c2)[2];
  }

  /** The fields a version tap reads and writes. */
  datatype TapState = TapState(count: int, showDeveloperSection: bool, isDeveloperMode: bool, progressMessage: string)

  /** OnVersionTappedAsync: count the tap; unlock once seven are reached while the section is
      hidden, report progress from the third tap on. */
  function Tap(st: TapState): TapState {
    var count := st.count + 1;
    if count >= UnlockTaps && !st.showDeveloperSection then
      TapState(0, true, true, UnlockedMessage)
    else if 3 <= count < UnlockTaps then
      st.(count := count, progressMessage := ProgressMessageFor(count))
    else
      st.(count := count)
  }

  predicate Unlocks(st: TapState) {
    st.count + 1 >= UnlockTaps && !st.showDeveloperSection
  }

  /** The tap is counted before anything else: the count grows by one unless the tap unlocks,
      which resets it to zero and shows the section in developer mode; an already shown
      section is never reset. */
  lemma TapCounts(st: TapState)
    ensures Unlocks(st) ==> Tap(st) == TapState(0, true, true, UnlockedMessage)
    ensures !Unlocks(st) ==> Tap(st).count == st.count + 1 &&
                             Tap(st).showDeveloperSection == st.showDeveloperSection &&
                             Tap(st).isDeveloperMode == st.isDeveloperMode
    ensures st.showDeveloperSection ==> Tap(st).count == st.count + 1
  {
  }

  /** Between the third and the sixth tap the message names the taps that remain; before the
      third only the count changes. */
  lemma TapProgress(st: TapState)
    requires !Unlocks(st)
    ensures 3 <= st.count + 1 < UnlockTaps ==> Tap(st).progressMessage == ProgressMessageFor(st.count + 1)
    ensures st.count + 1 < 3 ==> Tap(st) == st.(count := st.count + 1)
  {
  }

  function Taps(st: TapState, n: nat): TapState {
    if n == 0 then st else Tap(Taps(st, n - 1))
  }

  /** From a zero count with the section hidden, the first six taps only count and report. */
  lemma {:induction false} TapsBeforeUnlock(st: TapState, n: nat)
    requires st.count == 0 && !st.showDeveloperSection
    requires n < UnlockTaps
    ensures Taps(st, n).count == n && !Taps(st, n).showDeveloperSection
    ensures Taps(st, n).isDeveloperMode == st.isDeveloperMode
    ensures n < 3 ==> Taps(st, n).progressMessage == st.progressMessage
    ensures 3 <= n ==> Taps(st, n).progressMessage == ProgressMessageFor(n)
  {
    if n > 0 {
      TapsBeforeUnlock(st, n - 1);
    }
  }

  /** ... and the seventh unlocks developer mode and starts the count again. */
  lemma SeventhTapUnlocks(st: TapState)
    requires st.count == 0 && !st.showDeveloperSection
    ensures Taps(st, 7) == TapState(0, true, true, UnlockedMessage)
    ensures forall n: nat :: 1 <= n <= 2 ==> Taps(st, n) == st.(count := n)
  {
    TapsBeforeUnlock(st, 6);
    TapsBeforeUnlock(st, 1);
    TapsBeforeUnlock(st, 2);
    assert Taps(st, 2) == st.(count := 2);
  }

  const MinLogCount: int := 1
  const MaxLogCount: int := 100

  /** The LogCountToShow setter: values outside 1 to 100 are ignored. */
  function LogCountAfter(current: int, value: int): (r: int)
    ensures MinLogCount <= value <= MaxLogCount ==> r == value
    ensures !(MinLogCount <= value <= MaxLogCount) ==> r == current
  {
    if value >= 1 && value <= 100 then value else current
  }

  function LogCountAfterAll(current: int, values: seq<int>): int
    decreases |values|
  {
    if values == [] then current else LogCountAfter(LogCountAfterAll(current, values[..|values| - 1]), values[|values| - 1])
  }

  /** Whatever is typed into the field, the count stays in range from its initial 20, and it
      stays 20 while no value has been accepted. */
  lemma {:induction false} LogCountStaysInRange(values: seq<int>)
    ensures MinLogCount <= LogCountAfterAll(20, values) <= MaxLogCount
    ensures (forall i :: 0 <= i < |values| ==> !(MinLogCount <= values[i] <= MaxLogCount)) ==>
              LogCountAfterAll(20, values) == 20
    decreases |values|
  {
    if values != [] {
      LogCountStaysInRange(values[..|values| - 1]);
      var init := values[..|values| - 1];
      assert forall i :: 0 <= i < |init| ==> init[i] == values[i];
    }
  }

  /** The number LogCountInfo reports as shown: never more than asked for, never more than
      there are, and one of the two. */
  function ShownLogCount(logCountToShow: int, totalLogCount: int): (r: int)
    ensures r <= logCountToShow && r <= totalLogCount
    ensures r == logCountToShow || r == totalLogCount
  {
    if logCountToShow <= totalLogCount then logCountToShow else totalLogCount
  }

  /** The developer service calls the page makes. */
  datatype DeveloperCall = SetDeveloperMode(enabled: bool) | AddDebugLog(message: string)

  class AboutPageViewModel {
    var versionTapCount: int
    var showDeveloperSection: bool
    var isDeveloperMode: bool
    var progressMessage: string
    var logCountToShow: int
    var totalLogCount: int
    /** Calls into the developer service, in order. */
    ghost var calls: seq<DeveloperCall>

    ghost predicate Valid()
      reads this
    {
      MinLogCount <= logCountToShow <= MaxLogCount
    }

    constructor ()
      ensures Valid()
      ensures versionTapCount == 0 && !showDeveloperSection && !isDeveloperMode && progressMessage == []
      ensures logCountToShow == 20 && totalLogCount == 0 && calls == []
    {
      versionTapCount := 0;
      showDeveloperSection, isDeveloperMode := false, false;
      progressMessage := [];
      logCountToShow, totalLogCount := 20, 0;
      calls := [];
    }

    function TapFields(): TapState
      reads this
    {
      TapState(versionTapCount, showDeveloperSection, isDeveloperMode, progressMessage)
    }

    /** The IsDeveloperMode setter: switching off hides the section; the new value is passed
        on to the developer service. */
    method SetIsDeveloperMode(value: bool)
      modifies this`isDeveloperMode, this`showDeveloperSection, this`calls
      ensures isDeveloperMode == value
      ensures showDeveloperSection == (old(showDeveloperSection) && value)
      ensures calls == old(calls) + [SetDeveloperMode(value)]
    {
      isDeveloperMode := value;
      if !value {
        showDeveloperSection := false;
      }
      calls := calls + [SetDeveloperMode(value)];
    }

    /** The LogCountToShow setter. */
    method SetLogCountToShow(value: int)
      requires Valid()
      modifies this`logCountToShow
      ensures Valid()
      ensures logCountToShow == LogCountAfter(old(logCountToShow), value)
    {
      if value >= 1 && value <= 100 {
        logCountToShow := value;
      }
    }

    /** OnVersionTappedAsync. */
    method OnVersionTapped()
      modifies this`versionTapCount, this`showDeveloperSection, this`isDeveloperMode, this`progressMessage, this`calls
      ensures TapFields() == Tap(old(TapFields()))
      ensures calls == old(calls) + if Unlocks(old(TapFields()))
                                   then [SetDeveloperMode(true), SetDeveloperMode(true), AddDebugLog(UnlockedLog)]
                                   else []
    {
      versionTapCount := versionTapCount + 1;
      if versionTapCount >= 7 && !showDeveloperSection {
        showDeveloperSection := true;
        SetIsDeveloperMode(true);
        calls := calls + [SetDeveloperMode(true), AddDebugLog(UnlockedLog)];
        progressMessage := UnlockedMessage;
        versionTapCount := 0;
      } else if versionTapCount >= 3 && versionTapCount < 7 {
        var remaining := 7 - versionTapCount;
        var message := if remaining == 1 then "\U{1F513} Ett steg kvar..."
                       else "\U{1F513} " + [('0' as int + remaining) as char] + " steg kvar...";
        progressMessage := message;
      }
    }
  }
}
