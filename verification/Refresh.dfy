/** Coalesced refreshes of the dashboard: one timer, one fetch in flight, one pending flag.
    clock, lastMessage, lastStart and shown are histories: when the last invalidation arrived, when
    the latest fetch started, and when the fetch started whose data is displayed. */
module Refresh {
  import opened Events

  /** refreshTimer: null, a live timer, or the handle of a timer that was cleared. */
  datatype Timer = NoTimer | Armed | Cleared

  datatype Board = Board(
    refreshTimer: Timer,
    refreshInFlight: bool,
    refreshPending: bool,
    stopped: bool,
    mounted: bool,
    error: bool,
    liveTimers: nat,
    liveFetches: nat,
    clock: nat,
    lastMessage: Option<nat>,
    lastStart: Option<nat>,
    shown: Option<nat>)

  /** Callbacks, in the order in which the event loop runs them. */
  datatype Input =
    | Mount
    | Message(invalidation: bool)      // events.changed or stores.changed, or anything else
    | PollOrClick                      // the polling interval or the Refresh button
    | TimerFires
    | FetchEnds(ok: bool)
    | Unmount

  const NEW := Board(NoTimer, false, false, false, false, false, 0, 0, 0, None, None, None)

  function ScheduleRefresh(b: Board): Board {
    if !b.refreshTimer.NoTimer? then b
    else b.(refreshTimer := Armed, liveTimers := b.liveTimers + 1)
  }

  function RefreshStores(b: Board): Board {
    if b.refreshInFlight then b.(refreshPending := true)
    else b.(refreshInFlight := true, liveFetches := b.liveFetches + 1, lastStart := Some(b.clock))
  }

  function FetchDone(b: Board, ok: bool): Board {
    var b' := (if ok then b.(shown := b.lastStart, error := false) else b.(error := true))
              .(refreshInFlight := false, liveFetches := if b.liveFetches > 0 then b.liveFetches - 1 else 0);
    if b'.refreshPending && !b'.stopped then ScheduleRefresh(b'.(refreshPending := false)) else b'
  }

  /** A callback whose source is not live leaves the board as it is. */
  function React(b: Board, i: Input): Board {
    var b := b.(clock := b.clock + 1);
    match i
    case Mount => if b.mounted || b.stopped then b else RefreshStores(b.(mounted := true))
    case Message(invalidation) =>
      if b.mounted && invalidation then ScheduleRefresh(b.(lastMessage := Some(b.clock))) else b
    case PollOrClick => if b.mounted then RefreshStores(b) else b
    case TimerFires =>
      if b.refreshTimer.Armed? && b.liveTimers > 0
      then RefreshStores(b.(refreshTimer := NoTimer, liveTimers := b.liveTimers - 1))
      else b
    case FetchEnds(ok) => if b.refreshInFlight then FetchDone(b, ok) else b
    case Unmount =>
      if !b.mounted then b
      else b.(stopped := true, mounted := false,
              refreshTimer := if b.refreshTimer.NoTimer? then NoTimer else Cleared,
              liveTimers := if b.refreshTimer.Armed? && b.liveTimers > 0 then b.liveTimers - 1 else b.liveTimers)
  }

  function After(inputs: seq<Input>): Board {
    if inputs == [] then NEW else React(After(Init(inputs)), Last(inputs))
  }

  /** A fetch has started after moment m. */
  predicate Served(b: Board, m: nat) {
    b.lastStart.Some? && b.lastStart.value > m
  }

  predicate Owing(b: Board) {
    b.lastMessage.Some? && !Served(b, b.lastMessage.value)
  }

  predicate Inv(b: Board) {
    && b.liveTimers == (if b.refreshTimer.Armed? then 1 else 0)
    && b.liveFetches == (if b.refreshInFlight then 1 else 0)
    && (b.stopped ==> !b.mounted && !b.refreshTimer.Armed?)
    && (b.mounted ==> !b.refreshTimer.Cleared?)
    && (!b.mounted && !b.stopped ==> b.refreshTimer.NoTimer? && !b.refreshInFlight)
    && (b.lastMessage.Some? ==> b.lastMessage.value <= b.clock)
    && (b.lastStart.Some? ==> b.lastStart.value <= b.clock)
    && (b.mounted ==> b.lastStart.Some?)
    && (b.refreshPending ==> b.refreshInFlight || b.stopped)
    // an invalidation that no fetch has followed yet is kept by the timer or by the pending flag
    && (b.mounted && Owing(b) ==> b.refreshTimer.Armed? || (b.refreshInFlight && b.refreshPending))
    // between fetches the board shows the latest one, or an error
    && (b.mounted && !b.refreshInFlight ==> b.error || b.shown == b.lastStart)
  }

  lemma ReactKeepsInv(b: Board, i: Input)
    requires Inv(b)
    ensures Inv(React(b, i))
  {
    match i
    case Mount =>
    case Message(invalidation) =>
    case PollOrClick =>
    case TimerFires =>
    case FetchEnds(ok) =>
    case Unmount =>
  }

  lemma {:induction false} SessionKeepsInv(inputs: seq<Input>)
    ensures Inv(After(inputs))
  {
    if inputs != [] {
      SessionKeepsInv(Init(inputs));
      ReactKeepsInv(After(Init(inputs)), Last(inputs));
    }
  }

  /** Never two timers or two fetches; and with nothing under way, every invalidation was followed
      by a fetch that started after it, whose data is on display unless an error is. */
  lemma QuietBoardIsCurrent(inputs: seq<Input>)
    ensures
      var b := After(inputs);
      && b.liveTimers <= 1 && b.liveFetches <= 1
      && (b.mounted && b.liveTimers == 0 && b.liveFetches == 0 ==>
            && (b.lastMessage.Some? ==> Served(b, b.lastMessage.value))
            && (b.error || (b.shown == b.lastStart && (b.lastMessage.Some? ==> b.shown.value > b.lastMessage.value))))
  {
    SessionKeepsInv(inputs);
  }

  /** How many completions separate an invalidation from the fetch that follows it. */
  function Stage(b: Board, m: nat): nat {
    if Served(b, m) then 0 else if !b.refreshInFlight then 1 else 2
  }

  /** An unserved invalidation keeps a timer or a fetch under way; other callbacks never set it
      back; the end of the fetch, and then the timer, bring the fetch it waits for. */
  lemma InvalidationAdvances(b: Board, m: nat, i: Input)
    requires Inv(b) && b.mounted && b.lastMessage.Some? && m <= b.lastMessage.value && !i.Unmount?
    ensures React(b, i).mounted && React(b, i).lastMessage.Some? && m <= React(b, i).lastMessage.value
    ensures Stage(React(b, i), m) <= Stage(b, m)
    ensures Stage(b, m) > 0 ==> b.liveTimers > 0 || b.liveFetches > 0
    ensures Stage(b, m) == 2 && i.FetchEnds? ==> Stage(React(b, i), m) == 1
    ensures Stage(b, m) == 1 && (i.TimerFires? || i.PollOrClick?) ==> Served(React(b, i), m)
  {
  }

  lemma {:induction false} Onward(before: seq<Input>, more: seq<Input>, m: nat)
    requires
      var b := After(before);
      b.mounted && b.lastMessage.Some? && m <= b.lastMessage.value
    requires Unmount !in more
    ensures
      var b := After(before + more);
      && b.mounted && b.lastMessage.Some? && m <= b.lastMessage.value
      && Stage(b, m) <= Stage(After(before), m)
  {
    hide React, Inv, Served, Stage;
    if more == [] {
      assert before + more == before;
    } else {
      assert Init(before + more) == before + Init(more);
      assert Last(more) in more && forall i | i in Init(more) :: i in more;
      Onward(before, Init(more), m);
      SessionKeepsInv(before + Init(more));
      InvalidationAdvances(After(before + Init(more)), m, Last(more));
    }
  }

  /** Every invalidation received at any point of a history is served once the fetch that may be in
      flight has ended and a timer has fired after that, whatever else happens around them. */
  lemma {:induction false} NoInvalidationIsLost(before: seq<Input>, a: seq<Input>, c: seq<Input>, d: seq<Input>,
                                                ok: bool)
    requires After(before).mounted
    requires Unmount !in a + c + d
    ensures
      var message := before + [Message(true)];
      Served(After(message + a + [FetchEnds(ok)] + c + [TimerFires] + d), After(message).clock)
  {
    var message := before + [Message(true)];
    var m := After(message).clock;
    assert Init(message) == before;
    SessionKeepsInv(message);
    assert Unmount !in a && Unmount !in c && Unmount !in d;
    Onward(message, a, m);
    Onward(message + a, [FetchEnds(ok)], m);
    assert Init(message + a + [FetchEnds(ok)]) == message + a;
    SessionKeepsInv(message + a);
    InvalidationAdvances(After(message + a), m, FetchEnds(ok));
    var s := message + a + [FetchEnds(ok)];
    assert Stage(After(s), m) <= 1;
    Onward(s, c, m);
    SessionKeepsInv(s + c);
    InvalidationAdvances(After(s + c), m, TimerFires);
    assert Init(s + c + [TimerFires]) == s + c;
    Onward(s + c, [TimerFires], m);
    Onward(s + c + [TimerFires], d, m);
  }

  lemma StoppedStays(b: Board, i: Input)
    requires Inv(b) && b.stopped
    ensures React(b, i).stopped && React(b, i).lastStart == b.lastStart && React(b, i).liveTimers == 0
  {
  }

  /** After unmounting nothing starts any more: no fetch, no timer. */
  lemma {:induction false} NothingStartsAfterUnmount(before: seq<Input>, more: seq<Input>)
    requires After(before).stopped
    ensures After(before + more).stopped
    ensures After(before + more).lastStart == After(before).lastStart
    ensures After(before + more).liveTimers == 0
  {
    SessionKeepsInv(before);
    if more == [] {
      assert before + more == before;
    } else {
      hide React, Inv;
      assert Init(before + more) == before + Init(more);
      NothingStartsAfterUnmount(before, Init(more));
      SessionKeepsInv(before + Init(more));
      StoppedStays(After(before + Init(more)), Last(more));
    }
  }

  // ---------------------------------------------------------------- what is shown

  /** How the last fetch ended, if one has. */
  function LastOutcome(inputs: seq<Input>): Option<bool> {
    if inputs == [] then None
    else if Last(inputs).FetchEnds? && After(Init(inputs)).refreshInFlight then Some(Last(inputs).ok)
    else LastOutcome(Init(inputs))
  }

  lemma ReactShows(b: Board, i: Input)
    ensures
      var b' := React(b, i);
      if i.FetchEnds? && b.refreshInFlight
      then b'.error == !i.ok && b'.shown == if i.ok then b.lastStart else b.shown
      else b'.error == b.error && b'.shown == b.shown
  {
  }

  /** An error is shown exactly when the last fetch that ended has failed. */
  lemma {:induction false} ErrorExactly(inputs: seq<Input>)
    ensures After(inputs).error <==> LastOutcome(inputs) == Some(false)
  {
    if inputs != [] {
      hide React;
      ErrorExactly(Init(inputs));
      ReactShows(After(Init(inputs)), Last(inputs));
    }
  }

  /** A fetch that succeeds clears the error and shows what it fetched; one that fails shows an error
      and leaves the data alone; nothing else changes either. */
  lemma FetchShows(inputs: seq<Input>, ok: bool)
    requires After(inputs).refreshInFlight
    ensures
      var b, b' := After(inputs), After(inputs + [FetchEnds(ok)]);
      if ok then !b'.error && b'.shown == b.lastStart else b'.error && b'.shown == b.shown
  {
    assert Init(inputs + [FetchEnds(ok)]) == inputs;
    ReactShows(After(inputs), FetchEnds(ok));
  }

  // ---------------------------------------------------------------- no fetch without a cause

  /** What asks for a fetch: mounting, the poll or the button, and each invalidation. */
  function Causes(inputs: seq<Input>): nat {
    if inputs == [] then 0
    else
      Causes(Init(inputs))
      + if Last(inputs).Mount? || Last(inputs).PollOrClick? || Last(inputs) == Message(true) then 1 else 0
  }

  /** How many fetches have started. */
  function Starts(inputs: seq<Input>): nat {
    if inputs == [] then 0
    else Starts(Init(inputs)) + if After(inputs).lastStart != After(Init(inputs)).lastStart then 1 else 0
  }

  /** What is asked for and not started yet: the timer and the pending flag. */
  function Waiting(b: Board): nat {
    (if b.refreshTimer.Armed? then 1 else 0) + if b.refreshPending then 1 else 0
  }

  lemma ReactIsCaused(b: Board, i: Input)
    requires Inv(b)
    ensures
      var b' := React(b, i);
      (if b'.lastStart != b.lastStart then 1 else 0) + Waiting(b')
      <= Waiting(b) + if i.Mount? || i.PollOrClick? || i == Message(true) then 1 else 0
  {
    match i
    case Mount =>
    case Message(invalidation) =>
    case PollOrClick =>
    case TimerFires =>
    case FetchEnds(ok) =>
    case Unmount =>
  }

  /** No cause is ignored: it starts a fetch, or is pending behind the one in flight, or waits for the
      timer; and what is pending when a fetch ends goes to the timer. */
  lemma CausesAreHeeded(b: Board, i: Input)
    requires Inv(b)
    ensures
      var b' := React(b, i);
      && (b.mounted && i.PollOrClick? ==>
            if b.refreshInFlight then b'.refreshPending else b'.lastStart == Some(b'.clock) && b'.refreshInFlight)
      && (b.mounted && i == Message(true) ==> b'.refreshTimer.Armed? && b'.lastMessage == Some(b'.clock))
      && (i.Mount? && !b.mounted && !b.stopped ==> b'.mounted && b'.lastStart == Some(b'.clock))
      && (b.mounted && b.refreshPending && i.FetchEnds? ==> b'.refreshTimer.Armed? && !b'.refreshPending)
      && (b.refreshTimer.Armed? && i.TimerFires? ==>
            !b'.refreshTimer.Armed?
            && if b.refreshInFlight then b'.refreshPending else b'.lastStart == Some(b'.clock))
  {
  }

  /** Refreshes are coalesced and never made up: there are never more fetches, started or still to be
      started, than there were causes. */
  lemma {:induction false} FetchesAreCaused(inputs: seq<Input>)
    ensures Starts(inputs) + Waiting(After(inputs)) <= Causes(inputs)
  {
    if inputs != [] {
      hide React, Inv, Waiting;
      FetchesAreCaused(Init(inputs));
      SessionKeepsInv(Init(inputs));
      ReactIsCaused(After(Init(inputs)), Last(inputs));
    }
  }

  // ---------------------------------------------------------------- the component

  class App {
    var refreshTimer: Timer
    var refreshInFlight: bool
    var refreshPending: bool
    var stopped: bool
    var mounted: bool
    var error: bool
    var liveTimers: nat
    var liveFetches: nat
    var clock: nat
    var lastMessage: Option<nat>
    var lastStart: Option<nat>
    var shown: Option<nat>

    constructor ()
      ensures Valid() && Contents() == NEW
    {
      refreshTimer, refreshInFlight, refreshPending := NoTimer, false, false;
      stopped, mounted, error := false, false, false;
      liveTimers, liveFetches, clock := 0, 0, 0;
      lastMessage, lastStart, shown := None, None, None;
    }

    function Contents(): Board
      reads this
    {
      Board(refreshTimer, refreshInFlight, refreshPending, stopped, mounted, error,
            liveTimers, liveFetches, clock, lastMessage, lastStart, shown)
    }

    predicate Valid()
      reads this
    {
      Inv(Contents())
    }

    /** Nothing is under way. */
    predicate Quiet()
      reads this
    {
      mounted && liveTimers == 0 && liveFetches == 0
    }

    /** Between callbacks: never two timers or two fetches, and what a quiet component shows is as new
        as the last invalidation it received, unless it shows an error. */
    method Displayed() returns (data: Option<nat>, failed: bool)
      requires Valid()
      ensures data == shown && failed == error
      ensures liveTimers <= 1 && liveFetches <= 1
      ensures Quiet() && !failed ==> data == lastStart && data.Some?
      ensures Quiet() && !failed && lastMessage.Some? ==> data.value > lastMessage.value
    {
      data, failed := shown, error;
    }

    method Schedule()
      modifies this
      ensures Contents() == ScheduleRefresh(old(Contents()))
    {
      if refreshTimer != NoTimer { return; }
      refreshTimer := Armed;
      liveTimers := liveTimers + 1;
    }

    /** Up to the await of the fetch. */
    method Refresh()
      modifies this
      ensures Contents() == RefreshStores(old(Contents()))
    {
      if refreshInFlight {
        refreshPending := true;
        return;
      }
      refreshInFlight := true;
      liveFetches := liveFetches + 1;
      lastStart := Some(clock);
    }

    /** From the await on. */
    lemma FetchEndsIs(b: Board, ok: bool)
      requires b.refreshInFlight
      ensures React(b, FetchEnds(ok)) == FetchDone(b.(clock := b.clock + 1), ok)
    {
    }

    method FetchReturned(ok: bool)
      requires Valid() && refreshInFlight
      modifies this
      ensures Valid() && Contents() == React(old(Contents()), FetchEnds(ok))
      ensures error == !ok && shown == if ok then old(lastStart) else old(shown)
    {
      ReactKeepsInv(Contents(), FetchEnds(ok));
      FetchEndsIs(Contents(), ok);
      hide React;
      clock, refreshInFlight := clock + 1, false;
      shown, error := if ok then lastStart else shown, !ok;
      liveFetches := liveFetches - 1;
      if refreshPending && !stopped {
        refreshPending := false;
        Schedule();
      }
    }

    method OnMessage(invalidation: bool)
      requires Valid() && mounted
      modifies this
      ensures Valid() && Contents() == React(old(Contents()), Message(invalidation))
      ensures !invalidation ==> Contents() == old(Contents()).(clock := old(clock) + 1)
    {
      ReactKeepsInv(Contents(), Message(invalidation));
      clock := clock + 1;
      if invalidation {
        lastMessage := Some(clock);
        Schedule();
      }
    }

    method OnTimer()
      requires Valid() && refreshTimer.Armed? && liveTimers > 0
      modifies this
      ensures Valid() && Contents() == React(old(Contents()), TimerFires)
    {
      ReactKeepsInv(Contents(), TimerFires);
      clock := clock + 1;
      liveTimers := liveTimers - 1;
      refreshTimer := NoTimer;
      Refresh();
    }

    method OnPollOrClick()
      requires Valid() && mounted
      modifies this
      ensures Valid() && Contents() == React(old(Contents()), PollOrClick)
    {
      ReactKeepsInv(Contents(), PollOrClick);
      clock := clock + 1;
      Refresh();
    }

    method OnMounted()
      requires Valid() && !mounted && !stopped
      modifies this
      ensures Valid() && Contents() == React(old(Contents()), Mount)
    {
      ReactKeepsInv(Contents(), Mount);
      clock := clock + 1;
      mounted := true;
      Refresh();
    }

    method OnBeforeUnmount()
      requires Valid() && mounted
      modifies this
      ensures Valid() && Contents() == React(old(Contents()), Unmount)
    {
      ReactKeepsInv(Contents(), Unmount);
      clock := clock + 1;
      stopped := true;
      mounted := false;
      if refreshTimer != NoTimer {
        if refreshTimer.Armed? && liveTimers > 0 {
          liveTimers := liveTimers - 1;
        }
        refreshTimer := Cleared;
      }
    }
  }
}
