/** Work request completion notifications: the server side consumer replays what a client missed
    and then forwards live messages; the client runs a command for each message and afterwards
    persists the completion time of that message. The server can lose the connection and the client
    can crash at any point. */
module Notifications {
  import opened Outcomes

  /** A completed work request as the database stores it. No message is sent for those that were aborted or skipped:
      they are not announced. */
  datatype Item = Item(id: nat, completedAt: int, workspace: nat, announced: bool)

  /** `only` is the set of monitored workspaces; `None` monitors all of them. */
  predicate Wanted(only: Option<set<nat>>, x: Item) {
    only.None? || x.workspace in only.value
  }

  // ----- server side consumer -----

  function CompletedAt(db: seq<Item>, t: int): seq<Item> {
    if db == [] then []
    else CompletedAt(db[..|db| - 1], t) + if db[|db| - 1].completedAt == t then [db[|db| - 1]] else []
  }

  /** The filter of the second query, chosen by the result of the first one. */
  predicate Replayed(ties: nat, since: int, x: Item) {
    if ties == 1 then x.completedAt > since else x.completedAt >= since
  }

  ghost predicate InOrder(s: seq<Item>) {
    forall i, j :: 0 <= i < j < |s| ==> s[i].completedAt <= s[j].completedAt
  }

  /** `rows` is an answer to the second query on `db`: the selected rows ordered by completion time,
      in any order among equal times. */
  ghost predicate IsAnswer(rows: seq<Item>, db: seq<Item>, ties: nat, since: int) {
    && InOrder(rows)
    && forall x :: x in rows <==> x in db && Replayed(ties, since, x)
  }

  /** The filtered rows, in the order of the table. */
  function Selected(db: seq<Item>, ties: nat, since: int): seq<Item> {
    if db == [] then []
    else Selected(db[..|db| - 1], ties, since) + if Replayed(ties, since, db[|db| - 1]) then [db[|db| - 1]] else []
  }

  lemma {:induction false} SelectedMembers(db: seq<Item>, ties: nat, since: int)
    ensures forall x :: x in Selected(db, ties, since) <==> x in db && Replayed(ties, since, x)
  {
    if db != [] {
      SelectedMembers(db[..|db| - 1], ties, since);
      assert db == db[..|db| - 1] + [db[|db| - 1]];
    }
  }

  /** `x` is put behind all rows that are not later. */
  function Inserted(rows: seq<Item>, x: Item): seq<Item> {
    if rows == [] || rows[|rows| - 1].completedAt <= x.completedAt then rows + [x]
    else Inserted(rows[..|rows| - 1], x) + [rows[|rows| - 1]]
  }

  lemma {:induction false} InsertedMembers(rows: seq<Item>, x: Item)
    ensures multiset(Inserted(rows, x)) == multiset(rows) + multiset{x}
  {
    if rows != [] && rows[|rows| - 1].completedAt > x.completedAt {
      assert rows == rows[..|rows| - 1] + [rows[|rows| - 1]];
      InsertedMembers(rows[..|rows| - 1], x);
    }
  }

  lemma {:induction false} InsertedInOrder(rows: seq<Item>, x: Item)
    requires InOrder(rows)
    ensures InOrder(Inserted(rows, x))
  {
    if rows != [] && rows[|rows| - 1].completedAt > x.completedAt {
      var front, last := rows[..|rows| - 1], rows[|rows| - 1];
      InsertedInOrder(front, x);
      var r := Inserted(front, x);
      forall k | 0 <= k < |r|
        ensures r[k].completedAt <= last.completedAt
      {
        InsertedMembers(front, x);
        assert r[k] in multiset(r);
        assert r[k] in front || r[k] == x;
      }
    }
  }

  /** The rows that are sent to the client. */
  function ForClient(only: Option<set<nat>>, rows: seq<Item>): seq<Item> {
    if rows == [] then []
    else ForClient(only, rows[..|rows| - 1]) + if Wanted(only, rows[|rows| - 1]) then [rows[|rows| - 1]] else []
  }

  lemma {:induction false} ForClientOne(only: Option<set<nat>>, x: Item)
    ensures ForClient(only, [x]) == if Wanted(only, x) then [x] else []
  {
    assert [x][..0] == [];
  }

  class Consumer {
    var workspacesOnly: Option<set<nat>>
    var channelAddedToGroup: bool
    var outbox: seq<Item>

    /** Only monitored workspaces are reported. */
    ghost predicate Valid()
      reads this
    {
      forall x :: x in outbox ==> Wanted(workspacesOnly, x)
    }

    constructor ()
      ensures Valid() && workspacesOnly == None && !channelAddedToGroup && outbox == []
    {
      workspacesOnly := None;
      channelAddedToGroup := false;
      outbox := [];
    }

    method SendWorkRequestCompleted(x: Item)
      requires Valid()
      modifies this`outbox
      ensures Valid() && outbox == old(outbox) + ForClient(workspacesOnly, [x])
    {
      ForClientOne(workspacesOnly, x);
      if workspacesOnly.Some? && x.workspace !in workspacesOnly.value {
        return;
      }
      outbox := outbox + [x];
    }

    /** Both queries; `atCount` and `atList` are the tables that they see. */
    method GetPending(since: int, atCount: seq<Item>, atList: seq<Item>) returns (rows: seq<Item>)
      ensures IsAnswer(rows, atList, |CompletedAt(atCount, since)|, since)
      ensures multiset(rows) == multiset(Selected(atList, |CompletedAt(atCount, since)|, since))
    {
      var onLastCompletedCount := |CompletedAt(atCount, since)|;
      rows := [];
      for i := 0 to |atList|
        invariant InOrder(rows) && multiset(rows) == multiset(Selected(atList[..i], onLastCompletedCount, since))
      {
        assert atList[..i + 1][..i] == atList[..i];
        if Replayed(onLastCompletedCount, since, atList[i]) {
          InsertedMembers(rows, atList[i]);
          InsertedInOrder(rows, atList[i]);
          rows := Inserted(rows, atList[i]);
        }
      }
      assert atList[..|atList|] == atList;
      SelectedMembers(atList, onLastCompletedCount, since);
      assert forall x :: x in rows <==> x in multiset(rows);
    }

    method SendPending(rows: seq<Item>)
      requires Valid()
      modifies this`outbox
      ensures Valid() && outbox == old(outbox) + ForClient(workspacesOnly, rows)
    {
      for i := 0 to |rows|
        invariant Valid() && outbox == old(outbox) + ForClient(workspacesOnly, rows[..i])
      {
        SendWorkRequestCompleted(rows[i]);
        assert rows[..i + 1][..i] == rows[..i];
      }
      assert rows[..|rows|] == rows;
    }

    /** Joining the group comes before the queries; a rejected client never joins. A consumer serves one connection. */
    method Connect(allowed: bool, workspaces: Result<Option<set<nat>>, string>, since: Option<int>,
                   atCount: seq<Item>, atList: seq<Item>)
      returns (accepted: bool, rows: seq<Item>)
      requires outbox == []
      modifies this
      ensures Valid()
      ensures accepted <==> allowed && workspaces.Ok?
      ensures channelAddedToGroup == (accepted || old(channelAddedToGroup))
      ensures workspacesOnly == if accepted then workspaces.value else old(workspacesOnly)
      ensures outbox == ForClient(workspacesOnly, rows)
      ensures if accepted && since.Some?
              then IsAnswer(rows, atList, |CompletedAt(atCount, since.value)|, since.value)
              else rows == []
    {
      accepted, rows := false, [];
      if !allowed {
        return;
      }
      if workspaces.Err? {
        return;
      }
      workspacesOnly := workspaces.value;
      channelAddedToGroup := true;
      accepted := true;
      if since.None? {
        return;
      }
      rows := GetPending(since.value, atCount, atList);
      SendPending(rows);
    }

    method Disconnect()
      requires Valid()
      modifies this`channelAddedToGroup
      ensures Valid() && !channelAddedToGroup
    {
      channelAddedToGroup := false;
    }
  }

  // ----- client side -----

  /** What the client does that outlives it. */
  datatype Event = Ran(item: Item) | Saved(time: int)

  /** No time was saved for an item whose command was not run just before. */
  ghost predicate SavedAfterRun(events: seq<Event>) {
    forall i :: 0 <= i < |events| && events[i].Saved? ==>
      0 < i && events[i - 1].Ran? && events[i - 1].item.completedAt == events[i].time
  }

  class Listener {
    /** Whether there is a file for the last completion time. */
    const persistent: bool
    /** The file, if it exists, with the time in it, if there is one. */
    var file: Option<Option<int>>
    var events: seq<Event>

    ghost predicate Valid()
      reads this
    {
      && SavedAfterRun(events)
      && (events != [] && persistent ==>
            events[|events| - 1].Saved? && file == Some(Some(events[|events| - 1].time)))
    }

    constructor (persistent: bool, file: Option<Option<int>>)
      ensures Valid() && this.persistent == persistent && this.file == file && events == []
    {
      this.persistent, this.file, this.events := persistent, file, [];
    }

    method WriteLastCompletedAt(completedAt: Option<int>)
      modifies this
      ensures file == if persistent then Some(completedAt) else old(file)
      ensures events == old(events) + if persistent && completedAt.Some? then [Saved(completedAt.value)] else []
    {
      if !persistent {
        return;
      }
      file := Some(completedAt);
      if completedAt.Some? {
        events := events + [Saved(completedAt.value)];
      }
    }

    method ReadLastCompletedAt() returns (since: Option<int>)
      ensures since == if persistent && file.Some? then file.value else None
    {
      if !persistent {
        return None;
      }
      if file.None? {
        return None;
      }
      since := file.value;
    }

    /** The command is run to its end before the time is written. */
    method OnWorkRequestCompleted(x: Item)
      requires Valid()
      modifies this
      ensures Valid()
      ensures events == old(events) + [Ran(x)] + if persistent then [Saved(x.completedAt)] else []
      ensures file == if persistent then Some(Some(x.completedAt)) else old(file)
    {
      events := events + [Ran(x)];
      WriteLastCompletedAt(Some(x.completedAt));
    }
  }

  // ----- the protocol -----

  /** A connection from the client's point of view. `from` is the number of messages that had been sent to the group
      when the consumer joined it; later ones wait behind the replay. */
  datatype Link =
    | Offline
    | Joined(from: nat)
    | Counted(from: nat, ties: nat)
    | Streaming(inbox: seq<Item>, open: bool, running: bool)

  /** `since` is read from the file once, when the client process starts. */
  datatype Client = Down | Up(since: int, link: Link)

  datatype State = State(
    only: Option<set<nat>>,
    done: seq<Item>,      // completions, in the order of their times
    visible: seq<Item>,   // those whose transactions were committed
    sent: seq<Item>,      // those whose messages were sent to the group, in that order
    executed: set<Item>,  // the command was run to its end for these
    saved: int,           // content of the last-completed-at file
    client: Client)

  /** The message of a completion is sent from within its transaction: before or after others see the row. */
  datatype Step =
    | Complete(x: Item)
    | Appear(x: Item)
    | Publish(x: Item)
    | Start
    | Join
    | Count
    | List(rows: seq<Item>)
    | Disconnect(keep: nat)
    | Execute
    | Persist
    | Crash

  ghost predicate Enabled(s: State, step: Step) {
    match step
    case Complete(x) => x !in s.done && forall y :: y in s.done ==> y.completedAt <= x.completedAt
    case Appear(x) => x in s.done && x !in s.visible
    case Publish(x) => x in s.done && x.announced && x !in s.sent
    case Start => s.client.Down?
    case Join =>
      && s.client.Up?
      && (s.client.link.Offline? || (s.client.link.Streaming? && !s.client.link.open && !s.client.link.running))
    case Count => s.client.Up? && s.client.link.Joined?
    case List(rows) => Listing(s) && IsAnswer(rows, s.visible, s.client.link.ties, s.client.since)
    case Disconnect(keep) =>
      && s.client.Up?
      && (s.client.link.Streaming? ==> keep <= |s.client.link.inbox| && (s.client.link.running ==> 0 < keep))
    case Execute => Listening(s) && !s.client.link.running && s.client.link.inbox != []
    case Persist => Listening(s) && s.client.link.running && s.client.link.inbox != []
    case Crash => s.client.Up?
  }

  /** The list query is next. */
  predicate Listing(s: State) {
    s.client.Up? && s.client.link.Counted? && s.client.link.from <= |s.sent|
  }

  predicate Listening(s: State) {
    s.client.Up? && s.client.link.Streaming?
  }

  /** The messages that were sent since the consumer joined the group. */
  function Live(s: State): seq<Item>
    requires Listing(s)
  {
    s.sent[s.client.link.from..]
  }

  /** The replay followed by the live messages, before the client has seen any of them. */
  function FirstInbox(s: State, rows: seq<Item>): seq<Item>
    requires Listing(s)
  {
    ForClient(s.only, rows) + ForClient(s.only, Live(s))
  }

  ghost function Apply(s: State, step: Step): State
    requires Enabled(s, step)
  {
    match step
    case Complete(x) => s.(done := s.done + [x])
    case Appear(x) => s.(visible := s.visible + [x])
    case Publish(x) =>
      var s' := s.(sent := s.sent + [x]);
      if Listening(s) && s.client.link.open
      then Relink(s', s.client.link.(inbox := s.client.link.inbox + ForClient(s.only, [x])))
      else s'
    case Start => s.(client := Up(s.saved, Offline))
    case Join => Relink(s, Joined(|s.sent|))
    case Count => Relink(s, Counted(s.client.link.from, |CompletedAt(s.visible, s.client.since)|))
    case List(rows) => Relink(s, Streaming(FirstInbox(s, rows), true, false))
    case Disconnect(keep) =>
      if s.client.link.Streaming?
      then Relink(s, s.client.link.(inbox := s.client.link.inbox[..keep], open := false))
      else Relink(s, Offline)
    case Execute =>
      Relink(s.(executed := s.executed + {s.client.link.inbox[0]}), s.client.link.(running := true))
    case Persist =>
      Relink(s.(saved := s.client.link.inbox[0].completedAt),
             s.client.link.(inbox := s.client.link.inbox[1..], running := false))
    case Crash => s.(client := Down)
  }

  ghost function Relink(s: State, link: Link): State
    requires s.client.Up?
  {
    s.(client := Up(s.client.since, link))
  }

  // ----- what the persisted time stands for -----

  /** What is announced and wanted was executed. */
  ghost predicate Handled(s: State, x: Item) {
    x.announced && Wanted(s.only, x) ==> x in s.executed
  }

  ghost predicate HandledBefore(s: State, t: int) {
    forall x :: x in s.done && x.completedAt < t ==> Handled(s, x)
  }

  ghost predicate IsAt(s: State, x: Item, t: int) {
    x in s.done && x in s.executed && x.completedAt == t
  }

  /** Everything before `t` was handled, and something at `t` was executed. */
  ghost predicate Covered(s: State, t: int) {
    HandledBefore(s, t) && exists x :: IsAt(s, x, t)
  }

  /** Whatever comes before message `j` of the inbox was handled already or is earlier in the inbox. */
  ghost predicate EarlierFirst(s: State, inbox: seq<Item>, j: nat)
    requires j < |inbox|
  {
    forall x :: x in s.done && x.completedAt < inbox[j].completedAt ==> Handled(s, x) || x in inbox[..j]
  }

  ghost predicate Ordered(s: State, inbox: seq<Item>) {
    forall j :: 0 <= j < |inbox| ==> EarlierFirst(s, inbox, j)
  }

  /** No message is missing. */
  ghost predicate AllThere(s: State, inbox: seq<Item>) {
    forall x :: x in s.sent ==> Handled(s, x) || x in inbox
  }

  ghost predicate Distinct(items: seq<Item>) {
    forall i, j :: 0 <= i < j < |items| ==> items[i] != items[j]
  }

  ghost predicate Known(s: State, items: seq<Item>) {
    forall x :: x in items ==> x in s.done
  }

  ghost predicate LinkInv(s: State, link: Link) {
    match link
    case Offline => true
    case Joined(from) => from <= |s.sent|
    case Counted(from, _) => from <= |s.sent|
    case Streaming(inbox, open, running) =>
      && Known(s, inbox) && Ordered(s, inbox)
      && (open ==> AllThere(s, inbox))
      && (running ==> inbox != [] && inbox[0] in s.executed)
  }

  ghost predicate Inv(s: State) {
    && InOrder(s.done) && Known(s, s.visible) && Known(s, s.sent)
    && Distinct(s.sent) && (forall x :: x in s.sent ==> x.announced)
    && Covered(s, s.saved)
    && (s.client.Up? ==> Covered(s, s.client.since) && LinkInv(s, s.client.link))
  }

  // ----- how messages get lost -----

  /** The list query does not return `x`: its row is not visible yet, or it has the persisted time and the count query
      saw one row with that time. */
  ghost predicate NotListed(s: State, x: Item)
    requires Listing(s)
  {
    x !in s.visible || (s.client.link.ties == 1 && x.completedAt == s.client.since)
  }

  /** The message of a row that is not listed was sent before the consumer joined the group. */
  ghost predicate Missed(s: State)
    requires Listing(s)
  {
    exists x :: x in s.sent[..s.client.link.from] && !Handled(s, x) && NotListed(s, x)
  }

  /** In the messages that wait, `y` is not behind `x`. */
  ghost predicate WaitsBefore(live: seq<Item>, y: Item, x: Item) {
    exists k :: 0 <= k < |live| && live[k] == y && x !in live[..k]
  }

  /** A row that is not listed comes behind a later one that is listed or whose message was sent first. */
  ghost predicate Overtaken(s: State)
    requires Listing(s)
  {
    exists x, y :: Overtakes(s, y, x)
  }

  ghost predicate Overtakes(s: State, y: Item, x: Item)
    requires Listing(s)
  {
    && x in s.done && !Handled(s, x) && NotListed(s, x)
    && Wanted(s.only, y) && x.completedAt < y.completedAt && (y in s.visible || WaitsBefore(Live(s), y, x))
  }

  /** The message of `x` reaches an open connection before that of an earlier completion that it does not have yet. */
  ghost predicate SentOutOfOrder(s: State, x: Item) {
    && Listening(s) && s.client.link.open && Wanted(s.only, x)
    && exists z :: z in s.done && z.completedAt < x.completedAt && !Handled(s, z) && z !in s.client.link.inbox
  }

  /** A step after which a completion can be lost. */
  ghost predicate Hazard(s: State, step: Step)
    requires Enabled(s, step)
  {
    match step
    case List(_) => Missed(s) || Overtaken(s)
    case Publish(x) => SentOutOfOrder(s, x)
    case _ => false
  }

  // ----- runs -----

  ghost predicate Run(s: State, steps: seq<Step>)
    decreases |steps|
  {
    steps != [] ==> Enabled(s, steps[0]) && Run(Apply(s, steps[0]), steps[1..])
  }

  ghost function Exec(s: State, steps: seq<Step>): State
    requires Run(s, steps)
    decreases |steps|
  {
    if steps == [] then s else Exec(Apply(s, steps[0]), steps[1..])
  }

  ghost predicate NoHazard(s: State, steps: seq<Step>)
    requires Run(s, steps)
    decreases |steps|
  {
    steps != [] ==> !Hazard(s, steps[0]) && NoHazard(Apply(s, steps[0]), steps[1..])
  }

  // ----- what is sent to the client -----

  lemma {:induction false} ForClientMembers(only: Option<set<nat>>, rows: seq<Item>)
    ensures forall x :: x in ForClient(only, rows) <==> x in rows && Wanted(only, x)
  {
    if rows != [] {
      ForClientMembers(only, rows[..|rows| - 1]);
      assert rows == rows[..|rows| - 1] + [rows[|rows| - 1]];
    }
  }

  /** Where a wanted row ends up, and what is sent before it. */
  lemma {:induction false} SentAt(only: Option<set<nat>>, rows: seq<Item>, k: nat) returns (j: nat)
    requires k < |rows| && Wanted(only, rows[k])
    ensures j < |ForClient(only, rows)| && ForClient(only, rows)[j] == rows[k]
    ensures ForClient(only, rows)[..j] == ForClient(only, rows[..k])
  {
    var n := |rows| - 1;
    if k == n {
      j := |ForClient(only, rows[..n])|;
    } else {
      j := SentAt(only, rows[..n], k);
      assert rows[..n][..k] == rows[..k];
      assert ForClient(only, rows)[..j] == ForClient(only, rows[..n])[..j];
    }
  }

  /** Which row a message is, and what is sent before it. */
  lemma {:induction false} SentFrom(only: Option<set<nat>>, rows: seq<Item>, j: nat) returns (k: nat)
    requires j < |ForClient(only, rows)|
    ensures k < |rows| && Wanted(only, rows[k]) && ForClient(only, rows)[j] == rows[k]
    ensures ForClient(only, rows)[..j] == ForClient(only, rows[..k])
  {
    var n := |rows| - 1;
    var sent := ForClient(only, rows[..n]);
    if j < |sent| {
      k := SentFrom(only, rows[..n], j);
      assert rows[..n][..k] == rows[..k];
      assert ForClient(only, rows)[..j] == sent[..j];
    } else {
      k := n;
      assert ForClient(only, rows)[..j] == sent;
    }
  }

  // ----- the first inbox of a connection -----

  lemma {:induction false} Listed(s: State, rows: seq<Item>, x: Item)
    requires Inv(s) && Enabled(s, List(rows)) && x in s.done && !Handled(s, x)
    ensures x in ForClient(s.only, rows) <==> !NotListed(s, x)
  {
    ForClientMembers(s.only, rows);
  }

  /** Replay and live messages together miss nothing that was announced, unless a row was announced before the consumer
      joined and is not listed. */
  lemma {:induction false} ReplayAndLiveCoverAll(s: State, rows: seq<Item>)
    requires Inv(s) && Enabled(s, List(rows))
    ensures AllThere(s, FirstInbox(s, rows)) <==> !Missed(s)
  {
    var from := s.client.link.from;
    ForClientMembers(s.only, Live(s));
    assert s.sent == s.sent[..from] + Live(s);
    forall x | x in s.sent && !Handled(s, x)
      ensures x in ForClient(s.only, rows) <==> !NotListed(s, x)
    {
      Listed(s, rows, x);
    }
    if Missed(s) {
      var x :| x in s.sent[..from] && !Handled(s, x) && NotListed(s, x);
      MissedIsNotLive(s, x);
    }
  }

  lemma MissedIsNotLive(s: State, x: Item)
    requires Inv(s) && Listing(s) && x in s.sent[..s.client.link.from]
    ensures x !in Live(s)
  {
  }

  lemma {:induction false} ReplayedInOrder(s: State, rows: seq<Item>, j: nat)
    requires Inv(s) && Enabled(s, List(rows)) && !Overtaken(s) && j < |ForClient(s.only, rows)|
    ensures EarlierFirst(s, FirstInbox(s, rows), j)
  {
    var k := SentFrom(s.only, rows, j);
    assert FirstInbox(s, rows)[..j] == ForClient(s.only, rows[..k]);
    ForClientMembers(s.only, rows[..k]);
    var y := rows[k];
    forall x | x in s.done && x.completedAt < y.completedAt && !Handled(s, x)
      ensures x in rows[..k]
    {
      assert !Overtakes(s, y, x);
      Listed(s, rows, x);
      ForClientMembers(s.only, rows);
      var i :| 0 <= i < |rows| && rows[i] == x;
    }
  }

  lemma {:induction false} LiveInOrder(s: State, rows: seq<Item>, j: nat)
    requires Inv(s) && Enabled(s, List(rows)) && !Overtaken(s) && j < |ForClient(s.only, Live(s))|
    ensures EarlierFirst(s, FirstInbox(s, rows), |ForClient(s.only, rows)| + j)
  {
    var live := Live(s);
    var k := SentFrom(s.only, live, j);
    assert FirstInbox(s, rows)[..|ForClient(s.only, rows)| + j] ==
      ForClient(s.only, rows) + ForClient(s.only, live[..k]);
    ForClientMembers(s.only, live[..k]);
    var y := live[k];
    forall x | x in s.done && x.completedAt < y.completedAt && !Handled(s, x)
      ensures x in ForClient(s.only, rows) || x in live[..k]
    {
      assert !Overtakes(s, y, x);
      Listed(s, rows, x);
    }
  }

  /** A listed row is sent before whatever is not listed. */
  lemma {:induction false} ListedComesFirst(s: State, rows: seq<Item>, y: Item, x: Item)
    requires Inv(s) && Enabled(s, List(rows)) && Overtakes(s, y, x) && y in s.visible
    ensures !Ordered(s, FirstInbox(s, rows))
  {
    var inbox, sent := FirstInbox(s, rows), ForClient(s.only, rows);
    Listed(s, rows, x);
    assert y in rows;
    var i :| 0 <= i < |rows| && rows[i] == y;
    var j := SentAt(s.only, rows, i);
    assert inbox[j] == y && inbox[..j] == sent[..j];
    assert !EarlierFirst(s, inbox, j);
  }

  lemma {:induction false} SentComesFirst(s: State, rows: seq<Item>, y: Item, x: Item)
    requires Inv(s) && Enabled(s, List(rows)) && Overtakes(s, y, x) && WaitsBefore(Live(s), y, x)
    ensures !Ordered(s, FirstInbox(s, rows))
  {
    hide Inv, IsAnswer;
    var inbox, sent := FirstInbox(s, rows), ForClient(s.only, rows);
    Listed(s, rows, x);
    var live := Live(s);
    var k :| 0 <= k < |live| && live[k] == y && x !in live[..k];
    var i := SentAt(s.only, live, k);
    ForClientMembers(s.only, live[..k]);
    var j := |sent| + i;
    assert inbox[j] == y && inbox[..j] == sent + ForClient(s.only, live)[..i];
    assert !EarlierFirst(s, inbox, j);
  }

  /** A crash while the first inbox is being worked off loses nothing exactly when no row is overtaken. */
  lemma {:induction false} OrderedUnlessOvertaken(s: State, rows: seq<Item>)
    requires Inv(s) && Enabled(s, List(rows))
    ensures Ordered(s, FirstInbox(s, rows)) <==> !Overtaken(s)
  {
    if x, y :| Overtakes(s, y, x) {
      if y in s.visible {
        ListedComesFirst(s, rows, y, x);
      } else {
        SentComesFirst(s, rows, y, x);
      }
    } else {
      var replayed := |ForClient(s.only, rows)|;
      forall j | 0 <= j < |FirstInbox(s, rows)|
        ensures EarlierFirst(s, FirstInbox(s, rows), j)
      {
        if j < replayed {
          ReplayedInOrder(s, rows, j);
        } else {
          LiveInOrder(s, rows, j - replayed);
        }
      }
    }
  }

  /** A visible row is passed over just if the persisted time is that of another completion as well, which the client
      has executed. */
  lemma {:induction false} PassedOverIsTied(s: State, x: Item)
    requires Inv(s) && Listing(s) && x in s.visible && !Handled(s, x) && NotListed(s, x)
    ensures exists y :: IsAt(s, y, x.completedAt) && y != x
  {
    var y :| IsAt(s, y, s.client.since);
    assert IsAt(s, y, x.completedAt) && y != x;
  }

  // ----- steps -----

  /** What is known about times and messages looks only at the completions and at what was executed. */
  lemma {:induction false} MoreExecuted(s: State, s': State)
    requires s'.only == s.only && s'.done == s.done && s.executed <= s'.executed
    ensures forall t :: Covered(s, t) ==> Covered(s', t)
    ensures forall inbox :: Ordered(s, inbox) ==> Ordered(s', inbox)
    ensures forall inbox :: s'.sent == s.sent && AllThere(s, inbox) ==> AllThere(s', inbox)
  {
    assert forall x :: Handled(s, x) ==> Handled(s', x);
    forall t | Covered(s, t)
      ensures Covered(s', t)
    {
      var x :| IsAt(s, x, t);
      assert IsAt(s', x, t);
    }
    forall inbox | Ordered(s, inbox)
      ensures Ordered(s', inbox)
    {
      assert forall j :: 0 <= j < |inbox| && EarlierFirst(s, inbox, j) ==> EarlierFirst(s', inbox, j);
    }
  }

  lemma {:induction false} CoveredAfterCompletion(s: State, x: Item, t: int)
    requires Covered(s, t) && Enabled(s, Step.Complete(x))
    ensures Covered(Apply(s, Step.Complete(x)), t)
  {
    var s' := Apply(s, Step.Complete(x));
    var y :| IsAt(s, y, t);
    assert IsAt(s', y, t);
    assert forall z :: Handled(s, z) == Handled(s', z);
  }

  lemma {:induction false} OrderedAfterCompletion(s: State, x: Item, inbox: seq<Item>)
    requires Ordered(s, inbox) && Known(s, inbox) && Enabled(s, Step.Complete(x))
    ensures Ordered(Apply(s, Step.Complete(x)), inbox)
  {
    var s' := Apply(s, Step.Complete(x));
    forall j | 0 <= j < |inbox|
      ensures EarlierFirst(s', inbox, j)
    {
      assert EarlierFirst(s, inbox, j);
      assert inbox[j] in s.done;
      assert forall z :: Handled(s, z) == Handled(s', z);
    }
  }

  lemma {:induction false} CompleteKeeps(s: State, x: Item)
    requires Inv(s) && Enabled(s, Step.Complete(x))
    ensures Inv(Apply(s, Step.Complete(x)))
  {
    CoveredAfterCompletion(s, x, s.saved);
    assert forall z :: Handled(s, z) == Handled(Apply(s, Step.Complete(x)), z);
    if s.client.Up? {
      CoveredAfterCompletion(s, x, s.client.since);
      if Listening(s) {
        OrderedAfterCompletion(s, x, s.client.link.inbox);
      }
    }
  }

  lemma {:induction false} AppearKeeps(s: State, x: Item)
    requires Inv(s) && Enabled(s, Appear(x))
    ensures Inv(Apply(s, Appear(x)))
  {
    MoreExecuted(s, Apply(s, Appear(x)));
  }

  /** A message that is put behind the others. */
  lemma {:induction false} OrderedWithLast(s: State, inbox: seq<Item>, x: Item)
    requires Ordered(s, inbox)
    ensures Ordered(s, inbox + [x]) <==>
      forall z :: z in s.done && z.completedAt < x.completedAt ==> Handled(s, z) || z in inbox
  {
    var inbox' := inbox + [x];
    assert inbox'[..|inbox|] == inbox;
    forall j | 0 <= j < |inbox|
      ensures EarlierFirst(s, inbox', j)
    {
      assert EarlierFirst(s, inbox, j);
      assert inbox'[..j] == inbox[..j];
    }
    if Ordered(s, inbox') {
      assert EarlierFirst(s, inbox', |inbox|);
    }
  }

  lemma {:induction false} PublishKeepsExactly(s: State, x: Item)
    requires Inv(s) && Enabled(s, Publish(x))
    ensures Inv(Apply(s, Publish(x))) <==> !SentOutOfOrder(s, x)
  {
    var s' := Apply(s, Publish(x));
    MoreExecuted(s, s');
    MoreExecuted(s', s);
    if Listening(s) && s.client.link.open {
      ForClientOne(s.only, x);
      var inbox := s.client.link.inbox;
      assert inbox + [] == inbox;
      if Wanted(s.only, x) {
        OrderedWithLast(s, inbox, x);
        AllThereWithLast(s, s', inbox, x);
      }
    }
  }

  lemma {:induction false} AllThereWithLast(s: State, s': State, inbox: seq<Item>, x: Item)
    requires AllThere(s, inbox) && s'.sent == s.sent + [x] && s'.executed == s.executed && s'.only == s.only
    ensures AllThere(s', inbox + [x])
  {
    assert forall z :: Handled(s, z) == Handled(s', z);
  }

  lemma {:induction false} ListKeepsExactly(s: State, rows: seq<Item>)
    requires Inv(s) && Enabled(s, List(rows))
    ensures Inv(Apply(s, List(rows))) <==> !Missed(s) && !Overtaken(s)
  {
    var s' := Apply(s, List(rows));
    MoreExecuted(s, s');
    MoreExecuted(s', s);
    ReplayAndLiveCoverAll(s, rows);
    OrderedUnlessOvertaken(s, rows);
    ForClientMembers(s.only, rows);
    ForClientMembers(s.only, Live(s));
  }

  lemma {:induction false} DisconnectKeeps(s: State, keep: nat)
    requires Inv(s) && Enabled(s, Disconnect(keep))
    ensures Inv(Apply(s, Disconnect(keep)))
  {
    var s' := Apply(s, Disconnect(keep));
    MoreExecuted(s, s');
    if s.client.link.Streaming? {
      var inbox := s.client.link.inbox;
      forall j | 0 <= j < keep
        ensures EarlierFirst(s', inbox[..keep], j)
      {
        assert EarlierFirst(s', inbox, j);
        assert inbox[..keep][..j] == inbox[..j];
      }
    }
  }

  lemma {:induction false} ExecuteKeeps(s: State)
    requires Inv(s) && Enabled(s, Execute)
    ensures Inv(Apply(s, Execute))
  {
    MoreExecuted(s, Apply(s, Execute));
  }

  /** The time that gets persisted is covered: this is what the order of the inbox is for. */
  lemma {:induction false} HeadIsCovered(s: State, inbox: seq<Item>)
    requires Known(s, inbox) && Ordered(s, inbox) && inbox != [] && inbox[0] in s.executed
    ensures Covered(s, inbox[0].completedAt)
  {
    assert EarlierFirst(s, inbox, 0) && inbox[..0] == [];
    assert IsAt(s, inbox[0], inbox[0].completedAt);
  }

  lemma {:induction false} TailAfterHead(s: State, inbox: seq<Item>)
    requires Ordered(s, inbox) && inbox != [] && inbox[0] in s.executed
    ensures Ordered(s, inbox[1..])
    ensures AllThere(s, inbox) ==> AllThere(s, inbox[1..])
  {
    var tail := inbox[1..];
    assert inbox == [inbox[0]] + tail;
    forall j | 0 <= j < |tail|
      ensures EarlierFirst(s, tail, j)
    {
      assert EarlierFirst(s, inbox, j + 1);
      assert inbox[..j + 1] == [inbox[0]] + tail[..j];
    }
  }

  lemma {:induction false} PersistKeeps(s: State)
    requires Inv(s) && Enabled(s, Persist)
    ensures Inv(Apply(s, Persist))
  {
    HeadIsCovered(s, s.client.link.inbox);
    TailAfterHead(s, s.client.link.inbox);
    MoreExecuted(s, Apply(s, Persist));
  }

  lemma {:induction false} ConnectionKeeps(s: State, step: Step)
    requires Inv(s) && Enabled(s, step) && step in {Start, Join, Count, Crash}
    ensures Inv(Apply(s, step))
  {
    MoreExecuted(s, Apply(s, step));
  }

  /** A step keeps the invariant if and only if it is none of those after which a completion can be lost. */
  lemma {:induction false} StepKeepsExactly(s: State, step: Step)
    requires Inv(s) && Enabled(s, step)
    ensures Inv(Apply(s, step)) <==> !Hazard(s, step)
  {
    hide Inv, Missed, Overtaken, SentOutOfOrder;
    match step
    case Complete(x) => CompleteKeeps(s, x);
    case Appear(x) => AppearKeeps(s, x);
    case Publish(x) => PublishKeepsExactly(s, x);
    case List(rows) => ListKeepsExactly(s, rows);
    case Disconnect(keep) => DisconnectKeeps(s, keep);
    case Execute => ExecuteKeeps(s);
    case Persist => PersistKeeps(s);
    case Start => ConnectionKeeps(s, step);
    case Join => ConnectionKeeps(s, step);
    case Count => ConnectionKeeps(s, step);
    case Crash => ConnectionKeeps(s, step);
  }

  /** At-least-once execution: along every run without a hazard, whatever the interleaving of completions, commits,
      messages, disconnects and crashes, the persisted time is covered; and once an open connection has been worked
      off, every message that was sent and wanted has been executed. */
  lemma {:induction false} AtLeastOnce(s: State, steps: seq<Step>)
    requires Inv(s) && Run(s, steps) && NoHazard(s, steps)
    ensures var end := Exec(s, steps);
      && Inv(end) && Covered(end, end.saved)
      && (Listening(end) && end.client.link.open && end.client.link.inbox == []
          ==> forall x :: x in end.sent && Wanted(end.only, x) ==> x in end.executed)
    decreases |steps|
  {
    if steps != [] {
      StepKeepsExactly(s, steps[0]);
      AtLeastOnce(Apply(s, steps[0]), steps[1..]);
    }
  }

  /** The client handles the messages of its inbox one after the other, as far as it gets. Every prefix of this is a
      run without hazards; the file always holds what the protocol says. */
  method HandleMessages(client: Listener, inbox: seq<Item>, ghost s: State)
    returns (since: Option<int>, ghost end: State)
    requires client.Valid() && client.persistent && client.events == [] && client.file == Some(Some(s.saved))
    requires Inv(s) && Listening(s) && !s.client.link.running && inbox <= s.client.link.inbox
    modifies client
    ensures client.Valid() && |client.events| == 2 * |inbox|
    ensures forall i :: 0 <= i < |inbox| ==> client.events[2 * i] == Ran(inbox[i])
    ensures Inv(end) && since == Some(end.saved)
    ensures end.executed == s.executed + (set x | x in inbox)
    ensures end.client.Up? && end.client.link == s.client.link.(inbox := s.client.link.inbox[|inbox|..])
  {
    hide Inv, Covered, Run, Exec, Apply, Enabled;
    end := s;
    for i := 0 to |inbox|
      invariant client.Valid() && |client.events| == 2 * i && client.file == Some(Some(end.saved))
      invariant forall k :: 0 <= k < i ==> client.events[2 * k] == Ran(inbox[k])
      invariant Inv(end) && end.executed == s.executed + (set x | x in inbox[..i])
      invariant end.client.Up? && end.client.link == s.client.link.(inbox := s.client.link.inbox[i..])
    {
      client.OnWorkRequestCompleted(inbox[i]);
      ExecuteAndPersist(end);
      end := Apply(Apply(end, Execute), Persist);
      assert inbox[..i + 1] == inbox[..i] + [inbox[i]];
    }
    assert inbox[..|inbox|] == inbox;
    since := client.ReadLastCompletedAt();
  }

  lemma {:induction false} ExecuteAndPersist(s: State)
    requires Inv(s) && Listening(s) && !s.client.link.running && s.client.link.inbox != []
    ensures Enabled(s, Execute) && Enabled(Apply(s, Execute), Persist)
    ensures var s', x := Apply(Apply(s, Execute), Persist), s.client.link.inbox[0];
      && Inv(s') && s'.executed == s.executed + {x} && s'.saved == x.completedAt
      && s'.client == Up(s.client.since, s.client.link.(inbox := s.client.link.inbox[1..]))
  {
    ExecuteKeeps(s);
    PersistKeeps(Apply(s, Execute));
  }

  // ----- when nothing can be lost -----

  /** Announced completions at earlier times are among them, too. */
  ghost predicate ClosedBelow(s: State, items: seq<Item>) {
    forall x, y :: x in s.done && y in items && x.completedAt < y.completedAt && x.announced ==> x in items
  }

  /** The server works in order: rows become visible and messages are sent in the order of completion, among equal times
      in any order, and a row is visible before its message is sent. */
  ghost predicate Orderly(s: State, step: Step) {
    match step
    case Appear(x) => ClosedBelow(s, s.visible + [x])
    case Publish(x) => x in s.visible && ClosedBelow(s, s.sent + [x])
    case _ => true
  }

  ghost predicate OrderlyRun(s: State, steps: seq<Step>)
    requires Run(s, steps)
    decreases |steps|
  {
    steps != [] ==> Orderly(s, steps[0]) && OrderlyRun(Apply(s, steps[0]), steps[1..])
  }

  ghost predicate Seen(s: State, items: seq<Item>) {
    forall x :: x in items ==> x in s.visible
  }

  /** The count query found one row with the persisted time. */
  ghost predicate CountedOne(s: State) {
    s.client.Up? && s.client.link.Counted? && s.client.link.ties == 1
  }

  ghost predicate HandledAt(s: State, items: seq<Item>, t: int) {
    forall x :: x in items && x.completedAt == t ==> Handled(s, x)
  }

  /** What a server that works in order keeps. */
  ghost predicate InStep(s: State) {
    && ClosedBelow(s, s.visible) && ClosedBelow(s, s.sent) && Seen(s, s.sent)
    && (forall x :: x in s.executed ==> x in s.visible)
    && (Listening(s) ==> Seen(s, s.client.link.inbox))
    && (CountedOne(s) && s.client.link.from <= |s.sent| ==>
          HandledAt(s, s.sent[..s.client.link.from], s.client.since))
  }

  lemma {:induction false} CompletedAtMembers(db: seq<Item>, t: int)
    ensures forall x :: x in CompletedAt(db, t) <==> x in db && x.completedAt == t
  {
    if db != [] {
      CompletedAtMembers(db[..|db| - 1], t);
      assert db == db[..|db| - 1] + [db[|db| - 1]];
    }
  }

  /** If there is one visible row with the persisted time, then the client has executed that one. */
  lemma {:induction false} OneIsHandled(s: State)
    requires Inv(s) && InStep(s) && s.client.Up? && |CompletedAt(s.visible, s.client.since)| == 1
    ensures HandledAt(s, s.visible, s.client.since)
  {
    var rows := CompletedAt(s.visible, s.client.since);
    CompletedAtMembers(s.visible, s.client.since);
    var y :| IsAt(s, y, s.client.since);
    assert y in rows && forall x :: x in rows ==> x == rows[0];
  }

  lemma {:induction false} ListStaysInStep(s: State, rows: seq<Item>)
    requires InStep(s) && Enabled(s, List(rows))
    ensures InStep(Apply(s, List(rows)))
  {
    ForClientMembers(s.only, rows);
    ForClientMembers(s.only, Live(s));
  }

  lemma {:induction false} PublishStaysInStep(s: State, x: Item)
    requires Inv(s) && InStep(s) && Enabled(s, Publish(x)) && Orderly(s, Publish(x))
    ensures InStep(Apply(s, Publish(x)))
  {
    ForClientMembers(s.only, [x]);
    assert forall z :: Handled(s, z) == Handled(Apply(s, Publish(x)), z);
  }

  lemma {:induction false} RowStaysInStep(s: State, step: Step)
    requires Inv(s) && InStep(s) && Enabled(s, step) && Orderly(s, step) && (step.Complete? || step.Appear?)
    ensures InStep(Apply(s, step))
  {
    assert forall z :: Handled(s, z) == Handled(Apply(s, step), z);
  }

  lemma {:induction false} ClientStaysInStep(s: State, step: Step)
    requires Inv(s) && InStep(s) && Enabled(s, step)
    requires step.Disconnect? || step in {Start, Join, Count, Execute, Persist, Crash}
    ensures InStep(Apply(s, step))
  {
    hide Covered;
    var s' := Apply(s, step);
    assert forall z :: Handled(s, z) ==> Handled(s', z);
    if step.Count? && CountedOne(s') {
      OneIsHandled(s);
    }
  }

  lemma {:induction false} OrderlyKeepsInStep(s: State, step: Step)
    requires Inv(s) && InStep(s) && Enabled(s, step) && Orderly(s, step)
    ensures InStep(Apply(s, step))
  {
    hide InStep, Inv, Apply, Orderly;
    match step
    case Complete(_) => RowStaysInStep(s, step);
    case Appear(_) => RowStaysInStep(s, step);
    case Publish(x) => PublishStaysInStep(s, x);
    case List(rows) => ListStaysInStep(s, rows);
    case _ => ClientStaysInStep(s, step);
  }

  /** A row with the persisted time that the count query did not see is left out of a replay that holds a later one. */
  ghost predicate PassedOver(s: State)
    requires Listing(s)
  {
    && s.client.link.ties == 1
    && exists x, y :: x in s.visible && x.completedAt == s.client.since && !Handled(s, x)
                      && y in s.visible && Wanted(s.only, y) && x.completedAt < y.completedAt
  }

  ghost predicate NonePassedOver(s: State, steps: seq<Step>)
    requires Run(s, steps)
    decreases |steps|
  {
    steps != [] ==> !(steps[0].List? && PassedOver(s)) && NonePassedOver(Apply(s, steps[0]), steps[1..])
  }

  lemma {:induction false} OvertakenInStep(s: State, y: Item, x: Item)
    requires Inv(s) && InStep(s) && Listing(s) && Overtakes(s, y, x)
    ensures PassedOver(s)
  {
    assert y in s.visible by {
      if WaitsBefore(Live(s), y, x) {
        assert y in s.sent;
      }
    }
    assert x in s.visible && x.completedAt == s.client.since;
  }

  /** With a server that works in order, ties are the only hazard. */
  lemma {:induction false} HazardInStep(s: State, step: Step)
    requires Inv(s) && InStep(s) && Enabled(s, step) && Orderly(s, step)
    ensures Hazard(s, step) <==> step.List? && PassedOver(s)
  {
    match step
    case List(_) =>
      assert forall x :: x in s.sent[..s.client.link.from] ==> x in s.sent;
      assert !Missed(s);
      if x, y :| Overtakes(s, y, x) {
        OvertakenInStep(s, y, x);
      } else if PassedOver(s) {
        var x, y :| x in s.visible && x.completedAt == s.client.since && !Handled(s, x)
                    && y in s.visible && Wanted(s.only, y) && x.completedAt < y.completedAt;
        assert Overtakes(s, y, x);
      }
    case _ =>
  }

  /** Along every run of a server that works in order, nothing is a hazard if and only if no replay passes over a row
      with the persisted time. */
  lemma {:induction false} InOrderExactly(s: State, steps: seq<Step>)
    requires Inv(s) && InStep(s) && Run(s, steps) && OrderlyRun(s, steps)
    ensures NoHazard(s, steps) <==> NonePassedOver(s, steps)
    decreases |steps|
  {
    if steps != [] {
      HazardInStep(s, steps[0]);
      if !Hazard(s, steps[0]) {
        StepKeepsExactly(s, steps[0]);
        OrderlyKeepsInStep(s, steps[0]);
        InOrderExactly(Apply(s, steps[0]), steps[1..]);
      }
    }
  }

  /** No row with the persisted time becomes visible between a count query that finds one such row and the list
      query. */
  ghost predicate QuietRun(s: State, steps: seq<Step>)
    requires Run(s, steps)
    decreases |steps|
  {
    steps != [] ==>
      && (steps[0].Appear? && CountedOne(s) ==> steps[0].x.completedAt != s.client.since)
      && QuietRun(Apply(s, steps[0]), steps[1..])
  }

  ghost predicate TiesHandled(s: State) {
    CountedOne(s) ==> HandledAt(s, s.visible, s.client.since)
  }

  lemma {:induction false} QuietKeepsTies(s: State, step: Step)
    requires Inv(s) && InStep(s) && TiesHandled(s) && Enabled(s, step)
    requires step.Appear? && CountedOne(s) ==> step.x.completedAt != s.client.since
    ensures TiesHandled(Apply(s, step))
  {
    var s' := Apply(s, step);
    assert forall x :: Handled(s, x) ==> Handled(s', x);
    if step.Count? && CountedOne(s') {
      OneIsHandled(s);
    }
  }

  lemma {:induction false} QuietPassesOverNone(s: State, steps: seq<Step>)
    requires Inv(s) && InStep(s) && TiesHandled(s)
    requires Run(s, steps) && OrderlyRun(s, steps) && QuietRun(s, steps)
    ensures NonePassedOver(s, steps)
    decreases |steps|
  {
    if steps != [] {
      HazardInStep(s, steps[0]);
      StepKeepsExactly(s, steps[0]);
      OrderlyKeepsInStep(s, steps[0]);
      QuietKeepsTies(s, steps[0]);
      QuietPassesOverNone(Apply(s, steps[0]), steps[1..]);
    }
  }

  /** At-least-once execution for a server that works in order, whatever clients, network and crashes do, if no second
      row with the persisted time becomes visible between the two queries. */
  lemma {:induction false} AtLeastOnceInOrder(s: State, steps: seq<Step>)
    requires Inv(s) && InStep(s) && TiesHandled(s)
    requires Run(s, steps) && OrderlyRun(s, steps) && QuietRun(s, steps)
    ensures NoHazard(s, steps)
    ensures var end := Exec(s, steps);
      && Inv(end) && Covered(end, end.saved)
      && (Listening(end) && end.client.link.open && end.client.link.inbox == []
          ==> forall x :: x in end.sent && Wanted(end.only, x) ==> x in end.executed)
  {
    QuietPassesOverNone(s, steps);
    InOrderExactly(s, steps);
    AtLeastOnce(s, steps);
  }

  // ----- runs that lose a completion -----

  lemma {:induction false} RunFirst(s: State, step: Step, rest: seq<Step>)
    requires Enabled(s, step) && Run(Apply(s, step), rest)
    ensures Run(s, [step] + rest) && Exec(s, [step] + rest) == Exec(Apply(s, step), rest)
    ensures NoHazard(s, [step] + rest) <==> !Hazard(s, step) && NoHazard(Apply(s, step), rest)
  {
    assert ([step] + rest)[1..] == rest;
  }

  /** The client is connected and has nothing to do. */
  ghost predicate Waiting(s: State) {
    Listening(s) && s.client.link == Streaming([], true, false)
  }

  /** A message reaches a waiting client, which works it off. */
  const HEARD: seq<Step> := [Execute, Persist]

  lemma {:induction false} HeardAndDone(s: State, b: Item)
    requires Waiting(s) && Enabled(s, Publish(b)) && Wanted(s.only, b)
    ensures Run(s, [Publish(b)] + HEARD) && (NoHazard(s, [Publish(b)] + HEARD) <==> !SentOutOfOrder(s, b))
    ensures Exec(s, [Publish(b)] + HEARD) ==
      s.(sent := s.sent + [b], executed := s.executed + {b}, saved := b.completedAt)
  {
    var s1 := Apply(s, Publish(b));
    ForClientOne(s.only, b);
    assert [] + [b] == [b];
    WorkedOff(s1, b);
    RunFirst(s, Publish(b), HEARD);
  }

  lemma {:induction false} WorkedOff(s: State, b: Item)
    requires Listening(s) && s.client.link == Streaming([b], true, false)
    ensures Run(s, HEARD) && NoHazard(s, HEARD)
    ensures Exec(s, HEARD) ==
      s.(executed := s.executed + {b}, saved := b.completedAt, client := Up(s.client.since, Streaming([], true, false)))
  {
    var s1 := Apply(s, Execute);
    var s2 := Apply(s1, Persist);
    assert [b][1..] == [];
    assert Run(s2, []) && NoHazard(s2, []) && Exec(s2, []) == s2;
    RunFirst(s1, Persist, []);
    RunFirst(s, Execute, [Persist]);
    assert HEARD == [Execute] + [Persist] && [Persist] + [] == [Persist];
  }

  /** The client is past `x` without having executed it, and no later connection is sent it. */
  ghost predicate Lost(s: State, x: Item) {
    && x in s.done && Wanted(s.only, x) && x !in s.executed
    && forall visible, ties, rows :: IsAnswer(rows, visible, ties, s.saved) ==> x !in rows
  }

  lemma EarlierIsLost(s: State, x: Item)
    requires x in s.done && Wanted(s.only, x) && x !in s.executed && x.completedAt < s.saved
    ensures Lost(s, x)
  {
  }

  /** A completion that is followed by the message of a later one before its own message, if it has one, arrives: the
      persisted time goes past it. This is no hazard for work requests that are not announced, such as aborted ones:
      they are lost although the replay would send them. */
  lemma {:induction false} LaterMessageLoses(s: State, a: Item, b: Item)
    requires Inv(s) && Waiting(s) && (forall z :: z in s.done ==> Handled(s, z))
    requires Enabled(s, Step.Complete(a)) && Wanted(s.only, a) && a !in s.executed
    requires a.completedAt < b.completedAt && b !in s.done && b.announced && Wanted(s.only, b)
    ensures var run := [Step.Complete(a)] + ([Appear(a)] + ([Step.Complete(b)] + ([Publish(b)] + HEARD)));
      Run(s, run) && Lost(Exec(s, run), a) && a in Exec(s, run).visible && (NoHazard(s, run) <==> !a.announced)
  {
    TwoCompletions(s, a, b);
    var s3 := s.(done := s.done + [a] + [b], visible := s.visible + [a]);
    HeardAndDone(s3, b);
    EarlierIsLost(Exec(s3, [Publish(b)] + HEARD), a);
    OutOfOrderIfAnnounced(s, s3, a, b);
  }

  lemma {:induction false} TwoCompletions(s: State, a: Item, b: Item)
    requires Enabled(s, Step.Complete(a)) && Known(s, s.visible) && a.completedAt < b.completedAt && b !in s.done
    ensures var s3, first := s.(done := s.done + [a] + [b], visible := s.visible + [a]), [Step.Complete(a)];
      forall rest :: Run(s3, rest) ==>
        var run := first + ([Appear(a)] + ([Step.Complete(b)] + rest));
        Run(s, run) && Exec(s, run) == Exec(s3, rest) && (NoHazard(s, run) <==> NoHazard(s3, rest))
  {
    var s1 := Apply(s, Step.Complete(a));
    var s2 := Apply(s1, Appear(a));
    var s3 := Apply(s2, Step.Complete(b));
    forall rest | Run(s3, rest)
      ensures
        var run := [Step.Complete(a)] + ([Appear(a)] + ([Step.Complete(b)] + rest));
        Run(s, run) && Exec(s, run) == Exec(s3, rest) && (NoHazard(s, run) <==> NoHazard(s3, rest))
    {
      RunFirst(s2, Step.Complete(b), rest);
      RunFirst(s1, Appear(a), [Step.Complete(b)] + rest);
      RunFirst(s, Step.Complete(a), [Appear(a)] + ([Step.Complete(b)] + rest));
    }
  }

  lemma {:induction false} OutOfOrderIfAnnounced(s: State, s': State, a: Item, b: Item)
    requires Waiting(s) && (forall z :: z in s.done ==> Handled(s, z)) && a !in s.executed
    requires s'.client == s.client && s'.executed == s.executed && s'.only == s.only && s'.done == s.done + [a] + [b]
    requires Wanted(s.only, a) && Wanted(s.only, b) && a.completedAt < b.completedAt
    ensures SentOutOfOrder(s', b) <==> a.announced
  {
    assert forall z :: Handled(s', z) == Handled(s, z);
    if a.announced {
      assert a in s'.done && !Handled(s', a);
    }
  }

  /** A connection that starts with the queries, which find nothing. */
  const CONNECTED: seq<Step> := [Join] + ([Count] + [List([])])

  ghost predicate FindsNothing(s: State, ties: nat) {
    && s.client.Up? && s.client.link == Offline && Inv(s) && ties == |CompletedAt(s.visible, s.client.since)|
    && IsAnswer([], s.visible, ties, s.client.since)
  }

  lemma {:induction false} ConnectedWaits(s: State, ties: nat)
    requires FindsNothing(s, ties)
    ensures Run(s, CONNECTED) && Exec(s, CONNECTED) == Relink(s, Streaming([], true, false))
    ensures NoHazard(s, CONNECTED) ==> !Missed(Relink(s, Counted(|s.sent|, ties)))
  {
    var s1 := Apply(s, Join);
    var s2 := Apply(s1, Count);
    var none: seq<Item> := [];
    assert Live(s2) == none && none + none == none;
    var s3 := Apply(s2, List([]));
    assert Run(s3, []) && NoHazard(s3, []) && Exec(s3, []) == s3;
    RunFirst(s2, List([]), []);
    assert [List([])] + [] == [List([])];
    RunFirst(s1, Count, [List([])]);
    RunFirst(s, Join, [Count] + [List([])]);
  }

  lemma {:induction false} RunConcat(s: State, first: seq<Step>, second: seq<Step>)
    requires Run(s, first) && Run(Exec(s, first), second)
    ensures Run(s, first + second) && Exec(s, first + second) == Exec(Exec(s, first), second)
    ensures NoHazard(s, first + second) ==> NoHazard(s, first)
    decreases |first|
  {
    if first == [] {
      assert first + second == second;
    } else {
      assert (first + second)[1..] == first[1..] + second;
      RunConcat(Apply(s, first[0]), first[1..], second);
    }
  }

  /** A message that was sent before the client joined, while the row becomes visible after the queries, reaches the
      client neither way; the message of the next completion moves the persisted time past it. */
  lemma {:induction false} SentBeforeVisibleLoses(s: State, ties: nat, x: Item, b: Item)
    requires FindsNothing(s, ties) && x in s.sent && x !in s.visible && Wanted(s.only, x) && x !in s.executed
    requires Enabled(s, Step.Complete(b)) && x.completedAt < b.completedAt && b.announced && Wanted(s.only, b)
    ensures var run := CONNECTED + ([Appear(x)] + ([Step.Complete(b)] + ([Publish(b)] + HEARD)));
      Run(s, run) && Lost(Exec(s, run), x) && x in Exec(s, run).visible && !NoHazard(s, run)
  {
    ConnectedWaits(s, ties);
    var s1 := Relink(s, Streaming([], true, false));
    var s2 := Apply(s1, Appear(x));
    var s3 := Apply(s2, Step.Complete(b));
    HeardAndDone(s3, b);
    RunFirst(s2, Step.Complete(b), [Publish(b)] + HEARD);
    RunFirst(s1, Appear(x), [Step.Complete(b)] + ([Publish(b)] + HEARD));
    RunConcat(s, CONNECTED, [Appear(x)] + ([Step.Complete(b)] + ([Publish(b)] + HEARD)));
    EarlierIsLost(Exec(s3, [Publish(b)] + HEARD), x);
    var s0 := Relink(s, Counted(|s.sent|, ties));
    assert s0.sent[..|s.sent|] == s.sent;
    assert x in s0.sent[..s0.client.link.from] && !Handled(s0, x) && NotListed(s0, x);
  }

  /** A second completion at the persisted time and a later one become visible between the two queries; the list query
      leaves the first of them out, and the client goes past it. */
  lemma {:induction false} TieLoses(s: State, t: Item, b: Item)
    requires FindsNothing(s, 1) && Enabled(s, Step.Complete(t)) && t.completedAt == s.client.since < b.completedAt
    requires b !in s.done && t.announced && Wanted(s.only, t) && t !in s.executed && Wanted(s.only, b)
    ensures var run := [Join] + ([Count] + ([Step.Complete(t)] + ([Appear(t)] + ([Step.Complete(b)] +
      ([Appear(b)] + ([List([b])] + HEARD))))));
      Run(s, run) && Lost(Exec(s, run), t) && t in Exec(s, run).visible && !NoHazard(s, run)
  {
    var s2 := Relink(s, Counted(|s.sent|, 1));
    var s5 := s2.(done := s.done + [t] + [b], visible := s.visible + [t]);
    TwoCompletions(s2, t, b);
    ListedOverTie(s5, t, b);
    var rest := [Appear(b)] + ([List([b])] + HEARD);
    var all := [Step.Complete(t)] + ([Appear(t)] + ([Step.Complete(b)] + rest));
    assert Run(s2, all);
    var s1 := Apply(s, Join);
    assert Apply(s1, Count) == s2;
    RunFirst(s1, Count, all);
    RunFirst(s, Join, [Count] + all);
  }

  lemma {:induction false} ListedOverTie(s: State, t: Item, b: Item)
    requires Listing(s) && Live(s) == [] && s.client.link.ties == 1 && t.completedAt == s.client.since < b.completedAt
    requires t in s.done && t in s.visible && t.announced && Wanted(s.only, t) && t !in s.executed
    requires b in s.done && b !in s.visible && Wanted(s.only, b)
    requires forall x :: x in s.visible ==> x.completedAt <= s.client.since
    ensures var run := [Appear(b)] + ([List([b])] + HEARD);
      Run(s, run) && Lost(Exec(s, run), t) && t in Exec(s, run).visible && !NoHazard(s, run)
  {
    var s1 := Apply(s, Appear(b));
    assert IsAnswer([b], s1.visible, 1, s.client.since);
    var s2 := Apply(s1, List([b]));
    ForClientOne(s.only, b);
    assert [b] + [] == [b];
    WorkedOff(s2, b);
    RunFirst(s1, List([b]), HEARD);
    RunFirst(s, Appear(b), [List([b])] + HEARD);
    assert Overtakes(s1, b, t);
    EarlierIsLost(Exec(s2, HEARD), t);
  }
}
