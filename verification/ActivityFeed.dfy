/** The activity feed: a numbered, bounded buffer of events and the clients that poll it. */
module ActivityFeed {

  datatype Entry = Entry(kind: string, message: string, agent: string, level: string, time: int)

  datatype Event = Event(number: nat, entry: Entry)

  datatype Page = Page(latest: nat, dropped: nat, events: seq<Event>)

  /** The events past a position. */
  function Newer(buffer: seq<Event>, cursor: int): seq<Event> {
    if buffer == [] then []
    else
      var front := Newer(buffer[..|buffer| - 1], cursor);
      if buffer[|buffer| - 1].number > cursor then front + [buffer[|buffer| - 1]] else front
  }

  function PageOf(buffer: seq<Event>, latest: nat, cursor: int): Page {
    var events := Newer(buffer, cursor);
    var oldest := if buffer != [] then buffer[0].number else latest + 1;
    Page(latest, if cursor + 1 < oldest && events != [] then oldest - (cursor + 1) else 0, events)
  }

  /** The last `limit` elements. */
  function Last<T>(s: seq<T>, limit: nat): seq<T> { if |s| > limit then s[|s| - limit..] else s }

  /** `log` is everything ever published: numbered from 1 without a gap, and the buffer is its end. */
  ghost predicate Holds(buffer: seq<Event>, latest: nat, limit: nat, log: seq<Event>) {
    && |log| == latest && (forall i :: 0 <= i < |log| ==> log[i].number == i + 1)
    && |buffer| <= |log| && |buffer| <= limit && buffer == log[|log| - |buffer|..]
  }

  /** Where in the log a page starts. */
  function PageStart(cursor: int, latest: nat, buffered: nat): nat
    requires buffered <= latest
  {
    if cursor >= latest then latest else if cursor <= latest - buffered then latest - buffered else cursor
  }

  class Feed {
    const limit: nat
    var latest: nat
    var buffer: seq<Event>
    ghost var log: seq<Event>

    ghost predicate Valid()
      reads this
    {
      Holds(buffer, latest, limit, log)
    }

    constructor (limit: nat)
      ensures Valid() && this.limit == limit && log == []
    {
      this.limit := limit;
      latest, buffer, log := 0, [], [];
    }

    /** Numbers the event, keeps it in the log for good and in the buffer while there is room. */
    method Publish(entry: Entry) returns (event: Event)
      requires Valid()
      modifies this
      ensures Valid() && log == old(log) + [event] && event == Event(old(latest) + 1, entry)
      ensures buffer == Last(old(buffer) + [event], limit)
    {
      latest := latest + 1;
      event := Event(latest, entry);
      AppendHolds(buffer, latest - 1, limit, log, event);
      buffer := Last(buffer + [event], limit);
      log := log + [event];
    }

    /** A page is the end of the log past the cursor, as far as it is still held; it accounts for
        everything the caller has not seen exactly when something is held or nothing is new. */
    method Since(cursor: int) returns (page: Page)
      requires Valid()
      ensures page == PageOf(buffer, latest, cursor)
      ensures page.latest == |log| && page.events == log[PageStart(cursor, |log|, |buffer|)..]
      ensures cursor <= |log| ==> (|page.events| + page.dropped == |log| - cursor <==> buffer != [] || cursor == |log|)
      ensures page.events == [] ==> page.dropped == 0
    {
      NewerIsSuffix(buffer, latest, limit, log, cursor);
      var events := Newer(buffer, cursor);
      var oldest := if buffer != [] then buffer[0].number else latest + 1;
      var dropped := if cursor + 1 < oldest && events != [] then oldest - (cursor + 1) else 0;
      page := Page(latest, dropped, events);
    }

    /** The last events held; a limit of zero means all of them, a negative one skips that many. */
    method Snapshot(count: int) returns (latest': nat, events: seq<Event>)
      requires Valid()
      ensures latest' == |log|
      ensures 0 < count ==> events == Last(log, if count < |buffer| then count else |buffer|)
      ensures count == 0 ==> events == Last(log, |buffer|)
      ensures count < 0 ==> events == Last(log, if -count < |buffer| then |buffer| + count else 0)
    {
      var from := if count > 0 then |buffer| - count else -count;
      latest' := latest;
      events := buffer[if from < 0 then 0 else if from > |buffer| then |buffer| else from..];
    }

    method Clear()
      requires Valid()
      modifies this`buffer
      ensures Valid() && buffer == []
    {
      buffer := [];
    }
  }

  lemma AppendHolds(buffer: seq<Event>, latest: nat, limit: nat, log: seq<Event>, event: Event)
    requires Holds(buffer, latest, limit, log) && event.number == latest + 1
    ensures Holds(Last(buffer + [event], limit), latest + 1, limit, log + [event])
  {
    var log', buffer' := log + [event], buffer + [event];
    assert buffer' == log'[|log'| - |buffer'|..];
  }

  lemma {:induction false} NewerIsSuffix(buffer: seq<Event>, latest: nat, limit: nat, log: seq<Event>, cursor: int)
    requires Holds(buffer, latest, limit, log)
    ensures Newer(buffer, cursor) == log[PageStart(cursor, latest, |buffer|)..]
  {
    hide Newer;
    NewerInRange(log, |log| - |buffer|, |log|, cursor);
    assert log[|log| - |buffer|..|log|] == buffer;
  }

  lemma {:induction false} NewerInRange(log: seq<Event>, from: nat, to: nat, cursor: int)
    requires from <= to <= |log| && forall i :: 0 <= i < |log| ==> log[i].number == i + 1
    ensures Newer(log[from..to], cursor) == log[PageStart(cursor, to, to - from)..to]
  {
    if from < to {
      assert log[from..to][..to - from - 1] == log[from..to - 1];
      NewerInRange(log, from, to - 1, cursor);
      assert log[from..to][to - from - 1] == log[to - 1];
      RangeGrows(log, PageStart(cursor, to - 1, to - 1 - from), to - 1);
    }
  }

  lemma RangeGrows<T>(s: seq<T>, from: nat, to: nat)
    requires from <= to < |s|
    ensures s[from..to + 1] == s[from..to] + [s[to]]
  {}

  // ------------------------------------------------------------------
  // Polling runs
  // ------------------------------------------------------------------

  datatype Action = Publish(entry: Entry) | Poll | Clear

  /** A feed and one client that starts at zero and moves to `latest` at every poll; `silent` is what
      its polls passed over without delivering or reporting it. */
  datatype World = World(
    limit: nat, buffer: seq<Event>, log: seq<Event>, cursor: nat, received: seq<Event>, dropped: nat, silent: nat)

  function Fresh(limit: nat): World { World(limit, [], [], 0, [], 0, 0) }

  function Step(w: World, action: Action): World {
    match action
    case Publish(entry) =>
      var event := Event(|w.log| + 1, entry);
      w.(buffer := Last(w.buffer + [event], w.limit), log := w.log + [event])
    case Poll =>
      var page := PageOf(w.buffer, |w.log|, w.cursor);
      w.(cursor := page.latest, received := w.received + page.events, dropped := w.dropped + page.dropped,
         silent := w.silent + if w.buffer == [] && w.cursor < |w.log| then |w.log| - w.cursor else 0)
    case Clear => w.(buffer := [])
  }

  function Run(w: World, actions: seq<Action>): World {
    if actions == [] then w else Step(Run(w, actions[..|actions| - 1]), actions[|actions| - 1])
  }

  /** Events of the log up to the cursor, in order and each at most once. */
  ghost predicate Got(received: seq<Event>, cursor: nat, log: seq<Event>) {
    && (forall i :: 0 <= i < |received| ==> 1 <= received[i].number <= cursor && received[i].number <= |log|
                                            && log[received[i].number - 1] == received[i])
    && forall i, j :: 0 <= i < j < |received| ==> received[i].number < received[j].number
  }

  ghost predicate Sound(w: World) {
    && Holds(w.buffer, |w.log|, w.limit, w.log)
    && w.cursor <= |w.log| && Got(w.received, w.cursor, w.log)
    && |w.received| + w.dropped + w.silent == w.cursor
  }

  lemma GotMore(received: seq<Event>, cursor: nat, log: seq<Event>, start: nat)
    requires Got(received, cursor, log) && cursor <= start <= |log|
    requires forall i :: 0 <= i < |log| ==> log[i].number == i + 1
    ensures Got(received + log[start..], |log|, log)
  {
    var all := received + log[start..];
    assert forall i :: 0 <= i < |received| ==> all[i] == received[i];
    assert forall i :: |received| <= i < |all| ==> all[i] == log[start + i - |received|];
  }

  lemma PollKeepsSound(w: World)
    requires Sound(w)
    ensures Sound(Step(w, Poll))
  {
    hide Got, Newer;
    var start := PageStart(w.cursor, |w.log|, |w.buffer|);
    NewerIsSuffix(w.buffer, |w.log|, w.limit, w.log, w.cursor);
    GotMore(w.received, w.cursor, w.log, start);
  }

  lemma StepKeepsSound(w: World, action: Action)
    requires Sound(w)
    ensures Sound(Step(w, action))
  {
    match action
    case Publish(entry) => AppendHolds(w.buffer, |w.log|, w.limit, w.log, Event(|w.log| + 1, entry));
    case Poll => PollKeepsSound(w);
    case Clear =>
  }

  /** Over every run of publishing, polling and clearing: the client gets real events, in order, each
      once, and delivered plus dropped plus silently missed is the number of events it has passed. */
  lemma {:induction false} PollingConserves(limit: nat, actions: seq<Action>)
    ensures Sound(Run(Fresh(limit), actions))
  {
    hide Sound, Step;
    if actions == [] {
      FreshIsSound(limit);
    } else {
      PollingConserves(limit, actions[..|actions| - 1]);
      StepKeepsSound(Run(Fresh(limit), actions[..|actions| - 1]), actions[|actions| - 1]);
    }
  }

  lemma FreshIsSound(limit: nat)
    ensures Sound(Fresh(limit))
  {}

  predicate Quiet(w: World) { w.limit >= 1 && w.silent == 0 && (w.log != [] ==> w.buffer != []) }

  lemma StepStaysQuiet(w: World, action: Action)
    requires Quiet(w) && w.cursor <= |w.log| && action != Clear
    ensures Quiet(Step(w, action))
  {
    hide Newer;
  }

  /** With room for one event and no clearing nothing is missed silently. */
  lemma {:induction false} NothingMissed(limit: nat, actions: seq<Action>)
    requires limit >= 1 && Clear !in actions
    ensures Quiet(Run(Fresh(limit), actions))
    ensures var w := Run(Fresh(limit), actions);
            |w.received| + w.dropped == w.cursor
  {
    hide Step, Got, Holds;
    PollingConserves(limit, actions);
    if actions != [] {
      var front, last := actions[..|actions| - 1], actions[|actions| - 1];
      assert last in actions && forall a :: a in front ==> a in actions;
      NothingMissed(limit, front);
      PollingConserves(limit, front);
      StepStaysQuiet(Run(Fresh(limit), front), last);
    }
  }

  /** A poll after any run accounts for everything exactly when it finds something held or nothing new:
      a feed that was cleared, or one without room, loses events without a word. */
  lemma {:induction false} PollAccountsWhen(limit: nat, actions: seq<Action>)
    ensures var w := Run(Fresh(limit), actions);
            var next := Step(w, Poll);
            (|next.received| + next.dropped) - (|w.received| + w.dropped) == |w.log| - w.cursor
            <==> w.buffer != [] || w.cursor == |w.log|
  {
    var w := Run(Fresh(limit), actions);
    PollingConserves(limit, actions);
    PollKeepsSound(w);
  }

  /** Two clients cannot disagree on an event: what both received under one number is one event. */
  lemma {:induction false} ClientsAgree(limit: nat, actions: seq<Action>, more: seq<Action>, e: Event, e': Event)
    requires e in Run(Fresh(limit), actions).received && e' in Run(Fresh(limit), actions + more).received
    requires e.number == e'.number
    ensures e == e'
  {
    hide Run, Holds;
    PollingConserves(limit, actions);
    PollingConserves(limit, actions + more);
    LogGrows(Fresh(limit), actions, more);
  }

  lemma {:induction false} LogGrows(w: World, actions: seq<Action>, more: seq<Action>)
    ensures Run(w, actions).log <= Run(w, actions + more).log
  {
    if more == [] {
      assert actions + more == actions;
    } else {
      LogGrows(w, actions, more[..|more| - 1]);
      assert (actions + more)[..|actions + more| - 1] == actions + more[..|more| - 1];
    }
  }
}
