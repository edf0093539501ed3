/** Following the events of one run: the server's send loop, the client's reconnect loop, and the
    interleaving of both with publishes and disconnects.
  */
module EventStream {
  import opened Domain
  import opened RunStream

  /** Consecutive events of a log, from just after one cursor up to another. */
  function Span(log: seq<Event>, from: int, to: int): (events: seq<StreamEvent>)
    requires 0 <= from <= to <= |log|
    ensures |events| == to - from
  {
    Numbered(log)[from..to]
  }

  lemma SpanGrows(log: seq<Event>, longer: seq<Event>, from: int, to: int)
    requires 0 <= from <= to <= |log| && log <= longer
    ensures Span(longer, from, to) == Span(log, from, to)
  {
  }

  lemma SpanJoins(log: seq<Event>, from: int, mid: int, to: int)
    requires 0 <= from <= mid <= to <= |log|
    ensures Span(log, from, mid) + Span(log, mid, to) == Span(log, from, to)
  {
  }

  lemma SpanOpens(log: seq<Event>, from: int, to: int)
    requires 0 <= from < to <= |log|
    ensures Span(log, from, to)[0].id == from + 1
    ensures [Span(log, from, to)[0]] == Span(log, from, from + 1)
    ensures Span(log, from, to)[1..] == Span(log, from + 1, to)
  {
  }

  // ---------------------------------------------------------------- the server's send loop

  /** Writes events until the connection fails, moving the cursor along. */
  method Send(events: seq<StreamEvent>, cursor: int, writable: nat -> bool) returns (sent: nat, next: int, ok: bool)
    ensures sent <= |events|
    ensures next == if sent == 0 then cursor else events[sent - 1].id
    ensures forall k | 0 <= k < sent :: writable(k)
    ensures ok <==> sent == |events|
    ensures !ok ==> !writable(sent)
  {
    sent, next := 0, cursor;
    while sent < |events|
      invariant sent <= |events|
      invariant next == if sent == 0 then cursor else events[sent - 1].id
      invariant forall k | 0 <= k < sent :: writable(k)
    {
      if !writable(sent) {
        return sent, next, false;
      }
      next := events[sent].id;
      sent := sent + 1;
    }
    ok := true;
  }

  lemma SentExtends(log: seq<Event>, last: seq<Event>, cursor: int, current: int, sent: nat)
    requires 0 <= cursor <= current <= current + sent <= |log| && log <= last
    ensures var next := Numbered(log)[current..];
      && Span(last, cursor, current) + next[..sent] == Span(last, cursor, current + sent)
      && (sent > 0 ==> next[sent - 1].id == current + sent)
  {
    SpanJoins(last, cursor, current, current + sent);
    assert Numbered(log)[current..][..sent] == Span(last, current, current + sent);
  }

  /** The log of the run at the successive polls of one connection only grows. */
  ghost predicate Growing(logs: seq<seq<Event>>) {
    forall i, j | 0 <= i <= j < |logs| :: logs[i] <= logs[j]
  }

  /** Where the batch of poll `p` starts when all batches before it were sent. */
  function BatchStart(logs: seq<seq<Event>>, cursor: int, p: nat): int
    requires p <= |logs|
  {
    if p == 0 then cursor else |logs[p - 1]|
  }

  /** Between the polls `p - 1` and `p` no more was published than the history keeps. */
  predicate KeepsUp(logs: seq<seq<Event>>, limit: nat, p: nat)
    requires 1 <= p < |logs|
  {
    |logs[p]| - |logs[p - 1]| <= limit
  }

  /** Every poll before `polls` is answered, and every batch before the last one is written in full. */
  ghost predicate Served(logs: seq<seq<Event>>, limit: nat, cursor: int, writable: nat -> nat -> bool, polls: nat)
    requires 1 <= polls <= |logs|
  {
    && (forall p | 1 <= p < polls :: KeepsUp(logs, limit, p))
    && (forall p, k: nat | 0 <= p < polls - 1 && k < |logs[p]| - BatchStart(logs, cursor, p) :: writable(p)(k))
  }

  /** All writes succeed and no poll is refused. */
  ghost predicate Undisturbed(logs: seq<seq<Event>>, limit: nat, writable: nat -> nat -> bool) {
    && (forall p: nat, k: nat :: writable(p)(k))
    && (forall p | 1 <= p < |logs| :: KeepsUp(logs, limit, p))
  }

  /** handleRunEvents: the first answer decides whether there is a stream at all; then every tick
      sends what is new. `logs` is the run's log at each call of EventsAfter, `writable` tells
      for each tick how long writes succeed. The body of the response is a span of the log that
      starts at the requested cursor. It reaches to the end of the log at the last answered poll, or
      stops before the first event that could not be written; it ends only there, at a poll that is
      refused, or when the client goes. */
  method HandleRunEvents(limit: nat, logs: seq<seq<Event>>, cursor: int, writable: nat -> nat -> bool)
    returns (status: Answer, body: seq<StreamEvent>, polls: nat)
    requires logs != [] && Growing(logs) && cursor >= 0
    ensures status == LogAnswer(logs[0], limit, cursor)
    ensures status.NoEvents? ==> body == []
    ensures status.Events? ==>
      && cursor + |body| <= |logs[|logs| - 1]|
      && body == Span(logs[|logs| - 1], cursor, cursor + |body|)
    ensures status.Events? ==>
      && 1 <= polls <= |logs| && Served(logs, limit, cursor, writable, polls)
      && var sent := cursor + |body| - BatchStart(logs, cursor, polls - 1);
         var due := |logs[polls - 1]| - BatchStart(logs, cursor, polls - 1);
         var writes := writable(polls - 1);
         && 0 <= sent <= due
         && (forall k: nat | k < sent :: writes(k))
         && (sent < due ==> !writes(sent))
         && (sent == due ==> polls == |logs| || !KeepsUp(logs, limit, polls))
    ensures status.Events? && Undisturbed(logs, limit, writable) ==> cursor + |body| == |logs[|logs| - 1]|
  {
    hide Span, Numbered;
    ghost var last := logs[|logs| - 1];
    body, polls := [], 0;
    status := LogAnswer(logs[0], limit, cursor);
    if status.NoEvents? {
      return;
    }
    var current := cursor;
    var next := status.events;
    while true
      invariant polls < |logs|
      invariant 0 <= cursor <= current <= |logs[polls]|
      invariant next == Numbered(logs[polls])[current..]
      invariant current <= |last| && body == Span(last, cursor, current)
      invariant current == BatchStart(logs, cursor, polls)
      invariant Served(logs, limit, cursor, writable, polls + 1)
      decreases |logs| - polls
    {
      assert logs[polls] <= last;
      var sent, moved, ok := Send(next, current, writable(polls));
      SentExtends(logs[polls], last, cursor, current, sent);
      body := body + next[..sent];
      current := moved;
      polls := polls + 1;
      if !ok || polls == |logs| {
        return;
      }
      assert logs[polls - 1] <= logs[polls];
      var answer := LogAnswer(logs[polls], limit, current);
      if answer.NoEvents? {
        return;
      }
      next := answer.events;
    }
  }

  // ---------------------------------------------------------------- the client's loops

  datatype Ending = EndOfStream | Broken

  /** Why no stream opens: the server knows no such run, its broker refuses the cursor, or the request
      fails on its way. */
  datatype OpenError = UnknownRun | BadCursor(error: CursorError) | Unreachable

  /** `Interrupted`: the request failed because the client's context was cancelled. */
  datatype Connection = Refused(error: OpenError) | Interrupted | Opened(frames: seq<StreamEvent>, ending: Ending)

  /** `WriteFailed`: the client could not write an event to its own output. */
  datatype Exit = Ceased | TurnedAway(error: OpenError) | NonMonotonic | ReadFailed | WriteFailed

  datatype ReadResult = Reconnect | Stop(exit: Exit)

  /** What reading the frames of one connection comes to. */
  ghost predicate Reads(frames: seq<StreamEvent>, ending: Ending, cursor: int, writable: nat -> bool,
      received: seq<StreamEvent>, current: int, result: ReadResult)
  {
    && received <= frames
    && current == (if received == [] then cursor else received[|received| - 1].id)
    && (forall k | 0 <= k < |received| - 1 :: writable(k))
    && (result == Stop(WriteFailed) <==> received != [] && !writable(|received| - 1))
    && (result == Stop(NonMonotonic) <==>
          result != Stop(WriteFailed) && |received| < |frames| && frames[|received|].id <= current)
    && (result != Stop(WriteFailed) && result != Stop(NonMonotonic) ==>
          received == frames && result == if ending.EndOfStream? then Reconnect else Stop(ReadFailed))
  }

  /** The inner loop: reads frames until the stream ends, refuses identifiers that do not grow, and
      gives up at the first frame it cannot write; `writable` tells which it can. The cursor moves
      before the frame is written, so it counts that frame as well. */
  method ReadFrames(frames: seq<StreamEvent>, ending: Ending, cursor: int, writable: nat -> bool)
    returns (received: seq<StreamEvent>, current: int, result: ReadResult)
    ensures Reads(frames, ending, cursor, writable, received, current, result)
    ensures forall i, j | 0 <= i < j < |received| :: received[i].id < received[j].id
    ensures forall i | 0 <= i < |received| :: cursor < received[i].id
  {
    received, current := [], cursor;
    for i := 0 to |frames|
      invariant received == frames[..i]
      invariant current == if received == [] then cursor else received[|received| - 1].id
      invariant forall k | 0 <= k < i :: writable(k)
      invariant forall j, k | 0 <= j < k < |received| :: received[j].id < received[k].id
      invariant forall j | 0 <= j < |received| :: cursor < received[j].id <= current
    {
      var frame := frames[i];
      if frame.id <= current {
        return received, current, Stop(NonMonotonic);
      }
      current := frame.id;
      received := received + [frame];
      if !writable(i) {
        return received, current, Stop(WriteFailed);
      }
    }
    result := if ending.EndOfStream? then Reconnect else Stop(ReadFailed);
  }

  /** Every connection the server accepts delivers a span of the log from the requested cursor. */
  ghost predicate Serves(log: seq<Event>, connect: (nat, int) -> Connection) {
    forall n: nat, cursor: int | cursor >= 0 && connect(n, cursor).Opened? ::
      Delivers(log, cursor, connect(n, cursor).frames)
  }

  ghost predicate Delivers(log: seq<Event>, cursor: int, frames: seq<StreamEvent>) {
    0 <= cursor && cursor + |frames| <= |log| && frames == Span(log, cursor, cursor + |frames|)
  }

  /** The client holds the log between its first and its current cursor. */
  ghost predicate Holds(log: seq<Event>, start: int, cursor: int, received: seq<StreamEvent>) {
    && start <= cursor == start + |received|
    && (received != [] ==> 0 <= start && cursor <= |log| && received == Span(log, start, cursor))
  }

  /** The cursor of attempt `n` when every connection before it was read to its end. */
  function CursorAt(connect: (nat, int) -> Connection, start: int, n: nat): int {
    if n == 0 then start
    else
      var cursor := CursorAt(connect, start, n - 1);
      var connection := connect(n - 1, cursor);
      cursor + if connection.Opened? then |connection.frames| else 0
  }

  /** Attempt `n` is answered with a stream that ends properly, and all its frames can be written. */
  ghost predicate ReadThrough(connect: (nat, int) -> Connection, writable: nat -> nat -> bool, start: int, n: nat) {
    var connection := connect(n, CursorAt(connect, start, n));
    && connection.Opened? && connection.ending.EndOfStream?
    && forall k | 0 <= k < |connection.frames| :: writable(n)(k)
  }

  ghost predicate AllReadThrough(connect: (nat, int) -> Connection, writable: nat -> nat -> bool, start: int, n: nat) {
    forall j | 0 <= j < n :: ReadThrough(connect, writable, start, j)
  }

  /** Why the client stops after `attempts` connections were read to their end. */
  ghost predicate StopsFor(connect: (nat, int) -> Connection, writable: nat -> nat -> bool, start: int,
      patience: nat, attempts: nat, cursor: int, exit: Exit)
  {
    var from := CursorAt(connect, start, attempts);
    var connection := connect(attempts, from);
    match exit
    case Ceased => cursor == from && (attempts == patience || connection.Interrupted?)
    case TurnedAway(error) => cursor == from && attempts < patience && connection == Refused(error)
    case ReadFailed =>
      && attempts < patience && connection.Opened? && connection.ending.Broken?
      && cursor == from + |connection.frames|
      && forall k | 0 <= k < |connection.frames| :: writable(attempts)(k)
    case WriteFailed =>
      && attempts < patience && connection.Opened?
      && 0 < cursor - from <= |connection.frames|
      && !writable(attempts)(cursor - from - 1)
      && forall k | 0 <= k < cursor - from - 1 :: writable(attempts)(k)
    case NonMonotonic => false
  }

  /** runEvents: connects, reads, and reconnects at the cursor it has reached, until an error or until
      its context is done, before attempt number `patience`. What it received is exactly the log
      between the first and the last cursor. It reconnects after every stream that ends properly,
      having written all of it, and stops for exactly one of the reasons above; only an event whose
      write failed is lost. The check for identifiers that do not grow never fires. */
  method RunEvents(ghost log: seq<Event>, connect: (nat, int) -> Connection, writable: nat -> nat -> bool,
      start: int, patience: nat)
    returns (received: seq<StreamEvent>, cursor: int, exit: Exit, attempts: nat)
    requires start >= 0 && Serves(log, connect)
    ensures cursor == start + |received|
    ensures received != [] ==> cursor <= |log| && received == Span(log, start, cursor)
    ensures attempts <= patience && AllReadThrough(connect, writable, start, attempts)
    ensures StopsFor(connect, writable, start, patience, attempts, cursor, exit)
  {
    hide Span, Delivers, Reads, AllReadThrough, CursorAt, StopsFor, Serves;
    StopsUnread(connect, writable, start, patience, 0);
    received, cursor := [], start;
    HoldsNothing(log, start);
    for attempt := 0 to patience
      invariant start <= cursor && Holds(log, start, cursor, received)
      invariant cursor == CursorAt(connect, start, attempt)
      invariant AllReadThrough(connect, writable, start, attempt)
    {
      attempts := attempt;
      StopsUnread(connect, writable, start, patience, attempt);
      var connection := connect(attempt, cursor);
      if connection.Refused? {
        return received, cursor, TurnedAway(connection.error), attempts;
      }
      if connection.Interrupted? {
        return received, cursor, Ceased, attempts;
      }
      var read, current, result := ReadFrames(
        connection.frames, connection.ending, cursor, writable(attempt));
      ServedAt(log, connect, attempt, cursor);
      NeverNonMonotonic(log, cursor, connection.frames, connection.ending, writable(attempt), read, current, result);
      ReadEnds(connect, writable, start, patience, attempt, read, current, result);
      HoldsMore(log, start, cursor, received, read, current);
      received := received + read;
      cursor := current;
      if result.Stop? {
        return received, cursor, result.exit, attempts;
      }
    }
    exit, attempts := Ceased, patience;
    StopsUnread(connect, writable, start, patience, patience);
  }

  /** Of a stream that delivers a span of the log the client holds a span, and finds it in order. */
  lemma NeverNonMonotonic(log: seq<Event>, cursor: int, frames: seq<StreamEvent>, ending: Ending,
      writable: nat -> bool, read: seq<StreamEvent>, current: int, result: ReadResult)
    requires Delivers(log, cursor, frames) && Reads(frames, ending, cursor, writable, read, current, result)
    ensures current == cursor + |read| <= |log| && read == Span(log, cursor, current)
    ensures result != Stop(NonMonotonic)
  {
  }

  lemma ServedAt(log: seq<Event>, connect: (nat, int) -> Connection, n: nat, cursor: int)
    requires Serves(log, connect) && cursor >= 0 && connect(n, cursor).Opened?
    ensures Delivers(log, cursor, connect(n, cursor).frames)
  {
  }

  lemma HoldsNothing(log: seq<Event>, start: int)
    ensures Holds(log, start, start, [])
  {
  }

  lemma HoldsMore(log: seq<Event>, start: int, cursor: int, received: seq<StreamEvent>, read: seq<StreamEvent>,
      current: int)
    requires 0 <= start && Holds(log, start, cursor, received)
    requires start <= cursor && current == cursor + |read| <= |log| && read == Span(log, cursor, current)
    ensures start <= current && Holds(log, start, current, received + read)
  {
    SpanJoins(log, start, cursor, current);
    hide Span;
  }

  /** An attempt that opens no stream is the last. */
  lemma StopsUnread(connect: (nat, int) -> Connection, writable: nat -> nat -> bool, start: int, patience: nat,
      attempt: nat)
    ensures CursorAt(connect, start, 0) == start && AllReadThrough(connect, writable, start, 0)
    ensures var from := CursorAt(connect, start, attempt);
      var connection := connect(attempt, from);
      && (attempt == patience || connection.Interrupted? ==>
            StopsFor(connect, writable, start, patience, attempt, from, Ceased))
      && (attempt < patience && connection.Refused? ==>
            StopsFor(connect, writable, start, patience, attempt, from, TurnedAway(connection.error)))
  {
  }

  /** A connection is read to its end, or is the last. */
  lemma ReadEnds(connect: (nat, int) -> Connection, writable: nat -> nat -> bool, start: int, patience: nat,
      attempt: nat, read: seq<StreamEvent>, current: int, result: ReadResult)
    requires attempt < patience && AllReadThrough(connect, writable, start, attempt)
    requires var from := CursorAt(connect, start, attempt);
      var connection := connect(attempt, from);
      && connection.Opened? && current == from + |read| && result != Stop(NonMonotonic)
      && Reads(connection.frames, connection.ending, from, writable(attempt), read, current, result)
    ensures result.Reconnect? ==>
      AllReadThrough(connect, writable, start, attempt + 1) && current == CursorAt(connect, start, attempt + 1)
    ensures result.Stop? ==> StopsFor(connect, writable, start, patience, attempt, current, result.exit)
  {
  }

  // ---------------------------------------------------------------- any interleaving

  /** `pending` is what the server has fetched and not written, `wire` what it has written and the
      client has not read. */
  datatype Link = Link(open: bool, serverCursor: int, pending: seq<StreamEvent>, wire: seq<StreamEvent>)

  datatype Client = Waiting | Reading(link: Link) | Gone(exit: Exit)

  datatype World = World(
    log: seq<Event>, limit: nat, start: int, cursor: int, received: seq<StreamEvent>, client: Client)

  datatype Action =
    | Publish(event: Event)
    | Connect(obstacle: Option<OpenError>)   // what keeps the request from reaching the broker
    | Poll
    | Write
    | Read(written: bool)   // whether the client can write the event out
    | Disconnect(delivered: nat)   // the rest of the wire is lost
    | NoticeEnd(ending: Ending)
    | Cancel

  function Init(limit: nat, start: int): World {
    World([], limit, start, start, [], Waiting)
  }

  function StepLink(w: World, link: Link, a: Action): World
    requires w.client == Reading(link)
  {
    match a
    case Poll =>
      if !link.open || link.pending != [] || link.serverCursor < 0 then w
      else
        var answer := LogAnswer(w.log, w.limit, link.serverCursor);
        w.(client := Reading(if answer.NoEvents? then link.(open := false) else link.(pending := answer.events)))
    case Write =>
      if !link.open || link.pending == [] then w
      else
        w.(client := Reading(link.(serverCursor := link.pending[0].id, pending := link.pending[1..],
                                   wire := link.wire + [link.pending[0]])))
    case Read(written) =>
      if link.wire == [] then w
      else if link.wire[0].id <= w.cursor then w.(client := Gone(NonMonotonic))
      else
        w.(cursor := link.wire[0].id, received := w.received + [link.wire[0]],
           client := if written then Reading(link.(wire := link.wire[1..])) else Gone(WriteFailed))
    case Disconnect(delivered) =>
      w.(client := Reading(link.(open := false, wire := link.wire[..Min(delivered, |link.wire|)])))
    case NoticeEnd(ending) =>
      if link.open || link.wire != [] then w
      else w.(client := if ending.EndOfStream? then Waiting else Gone(ReadFailed))
    case _ => w
  }

  function Step(w: World, a: Action): World {
    match a
    case Publish(event) => w.(log := w.log + [event])
    case Connect(obstacle) =>
      if !w.client.Waiting? || w.cursor < 0 then w
      else if obstacle.Some? then w.(client := Gone(TurnedAway(obstacle.value)))
      else
        var answer := LogAnswer(w.log, w.limit, w.cursor);
        w.(client := if answer.NoEvents? then Gone(TurnedAway(BadCursor(answer.error)))
                     else Reading(Link(true, w.cursor, answer.events, [])))
    case Cancel => if w.client.Gone? then w else w.(client := Gone(Ceased))
    case _ => if w.client.Reading? then StepLink(w, w.client.link, a) else w
  }

  function Run(limit: nat, start: int, actions: seq<Action>): World {
    if actions == [] then Init(limit, start)
    else Step(Run(limit, start, actions[..|actions| - 1]), actions[|actions| - 1])
  }

  ghost predicate LinkOK(w: World, link: Link) {
    && 0 <= w.cursor
    && link.serverCursor == w.cursor + |link.wire|
    && link.serverCursor + |link.pending| <= |w.log|
    && link.wire == Span(w.log, w.cursor, link.serverCursor)
    && link.pending == Span(w.log, link.serverCursor, link.serverCursor + |link.pending|)
  }

  /** After a disconnect the server's cursor is of no more use. */
  ghost predicate BrokenLinkOK(w: World, link: Link) {
    && 0 <= w.cursor && w.cursor + |link.wire| <= |w.log|
    && link.wire == Span(w.log, w.cursor, w.cursor + |link.wire|)
  }

  ghost predicate WorldOK(w: World) {
    && 0 <= w.start
    && w.cursor == w.start + |w.received|
    && (w.received != [] ==> w.cursor <= |w.log| && w.received == Span(w.log, w.start, w.cursor))
    && (w.client.Reading? ==>
          if w.client.link.open then LinkOK(w, w.client.link) else BrokenLinkOK(w, w.client.link))
    && w.client != Gone(NonMonotonic)
  }

  lemma PublishOK(w: World, event: Event)
    requires WorldOK(w)
    ensures WorldOK(Step(w, Publish(event)))
  {
    hide Span;
    var log := w.log + [event];
    if w.received != [] {
      SpanGrows(w.log, log, w.start, w.cursor);
    }
    if w.client.Reading? {
      var link := w.client.link;
      SpanGrows(w.log, log, w.cursor, w.cursor + |link.wire|);
      if link.open {
        SpanGrows(w.log, log, link.serverCursor, link.serverCursor + |link.pending|);
      }
    }
  }

  lemma ReadOK(w: World, written: bool)
    requires WorldOK(w) && w.client.Reading? && w.client.link.wire != []
    ensures WorldOK(Step(w, Read(written)))
  {
    var wire := w.client.link.wire;
    SpanOpens(w.log, w.cursor, w.cursor + |wire|);
    SpanJoins(w.log, w.start, w.cursor, w.cursor + 1);
    hide Span, LogAnswer;
  }

  lemma WriteOK(w: World)
    requires WorldOK(w) && w.client.Reading? && w.client.link.open && w.client.link.pending != []
    ensures WorldOK(Step(w, Write))
  {
    var link := w.client.link;
    SpanOpens(w.log, link.serverCursor, link.serverCursor + |link.pending|);
    SpanJoins(w.log, w.cursor, link.serverCursor, link.serverCursor + 1);
    hide Span, LogAnswer;
  }

  lemma DisconnectOK(w: World, delivered: nat)
    requires WorldOK(w) && w.client.Reading?
    ensures WorldOK(Step(w, Disconnect(delivered)))
  {
    var link := w.client.link;
    assert link.wire == Span(w.log, w.cursor, w.cursor + |link.wire|);
  }

  lemma StepOK(w: World, a: Action)
    requires WorldOK(w)
    ensures WorldOK(Step(w, a))
  {
    match a {
      case Publish(event) => PublishOK(w, event);
      case Read(written) => if w.client.Reading? && w.client.link.wire != [] { ReadOK(w, written); }
      case Write => if w.client.Reading? && w.client.link.open && w.client.link.pending != [] { WriteOK(w); }
      case Disconnect(delivered) => if w.client.Reading? { DisconnectOK(w, delivered); }
      case _ =>
    }
  }

  lemma {:induction false} RunOK(limit: nat, start: int, actions: seq<Action>)
    requires start >= 0
    ensures WorldOK(Run(limit, start, actions))
    ensures Run(limit, start, actions).start == start && Run(limit, start, actions).limit == limit
  {
    hide WorldOK, LogAnswer;
    if actions == [] {
      InitOK(limit, start);
    } else {
      RunOK(limit, start, actions[..|actions| - 1]);
      StepOK(Run(limit, start, actions[..|actions| - 1]), actions[|actions| - 1]);
    }
  }

  lemma InitOK(limit: nat, start: int)
    requires start >= 0
    ensures WorldOK(Init(limit, start))
  {
  }

  /** Over any interleaving of publishes, polls, writes, reads, disconnects and reconnects the client
      holds exactly the log between its first and its current cursor: no gap, no duplicate, no
      reordering. An event it could not write is the last one it holds, and the end of it. Its check
      for identifiers that do not grow never fires. */
  lemma ClientHoldsExactSlice(limit: nat, start: int, actions: seq<Action>)
    requires start >= 0
    ensures var w := Run(limit, start, actions);
      && w.cursor == start + |w.received|
      && (w.received != [] ==> w.cursor <= |w.log| && w.received == Span(w.log, start, w.cursor))
      && w.client != Gone(NonMonotonic)
  {
    hide Run;
    RunOK(limit, start, actions);
  }

  /** How opening a stream can end. An obstacle on the way is reported as it is. Without one the client
      is turned away if and only if it has lost events for good, which is the only way once it has
      received something, or asked for a cursor nobody has reached; otherwise it is connected. */
  lemma RefusedForCause(limit: nat, start: int, actions: seq<Action>, obstacle: Option<OpenError>)
    requires start >= 0 && Run(limit, start, actions).client.Waiting?
    ensures var w := Run(limit, start, actions);
      var next := Step(w, Connect(obstacle)).client;
      var lost := exists id | w.cursor < id <= |w.log| :: !Keeps(w.log, limit, id);
      && (obstacle.Some? ==> next == Gone(TurnedAway(obstacle.value)))
      && (obstacle.None? ==>
            && (next == Gone(TurnedAway(BadCursor(CursorInvalid))) <==> w.cursor > |w.log|)
            && (next == Gone(TurnedAway(BadCursor(CursorExpired))) <==> lost)
            && (next.Reading? <==> w.cursor <= |w.log| && !lost)
            && (w.received != [] && next.Gone? ==> lost))
  {
    hide Run, Keeps;
    RunOK(limit, start, actions);
    var w := Run(limit, start, actions);
    AnswerMeans(w.log, limit, w.cursor);
  }

  // ---------------------------------------------------------------- catching up

  /** Write and read one pending event after the other. */
  function Deliver(w: World, n: nat): World
    decreases n
  {
    if n == 0 then w else Deliver(Step(Step(w, Write), Read(true)), n - 1)
  }

  /** The client reads one more event, and the server has one less to write. */
  lemma DeliverOne(w: World)
    requires WorldOK(w) && w.client.Reading? && w.client.link.open && w.client.link.wire == []
    requires w.client.link.pending != []
    ensures var next := Step(Step(w, Write), Read(true));
      && WorldOK(next) && next.log == w.log && next.start == w.start
      && next.cursor == w.cursor + 1
      && next.client.Reading? && next.client.link.open && next.client.link.wire == []
      && next.client.link.pending == w.client.link.pending[1..]
  {
    hide WorldOK, LogAnswer;
    WriteOK(w);
    NextInLine(w);
    ReadOK(Step(w, Write), true);
  }

  lemma NextInLine(w: World)
    requires WorldOK(w) && w.client.Reading? && w.client.link.open && w.client.link.wire == []
    requires w.client.link.pending != []
    ensures w.client.link.pending[0].id == w.cursor + 1
  {
    var link := w.client.link;
    SpanOpens(w.log, link.serverCursor, link.serverCursor + |link.pending|);
  }

  lemma {:induction false} DeliverAll(w: World)
    requires WorldOK(w) && w.client.Reading? && w.client.link.open && w.client.link.wire == []
    ensures var done := Deliver(w, |w.client.link.pending|);
      && WorldOK(done) && done.log == w.log && done.start == w.start
      && done.cursor == w.cursor + |w.client.link.pending|
    decreases |w.client.link.pending|
  {
    hide WorldOK, Step;
    if w.client.link.pending != [] {
      DeliverOne(w);
      DeliverAll(Step(Step(w, Write), Read(true)));
    }
  }

  function Behind(w: World): nat {
    if w.cursor < |w.log| then |w.log| - w.cursor else 0
  }

  /** A connected client that falls behind by no more than the history limit misses nothing: one
      poll, and it holds the whole log after its first cursor. */
  lemma ConnectedClientCatchesUp(limit: nat, start: int, actions: seq<Action>)
    requires start >= 0
    requires var w := Run(limit, start, actions);
      && w.client.Reading? && w.client.link.open && w.client.link.pending == [] && w.client.link.wire == []
      && |w.log| - w.cursor <= limit
    ensures var w := Run(limit, start, actions);
      var done := Deliver(Step(w, Poll), Behind(w));
      && done.cursor == |w.log|
      && start <= |w.log|
      && done.received == Numbered(w.log)[start..]
  {
    hide Run, Deliver;
    RunOK(limit, start, actions);
    var w := Run(limit, start, actions);
    StepOK(w, Poll);
    var polled := Step(w, Poll);
    assert polled.client.link.pending == Numbered(w.log)[w.cursor..];
    DeliverAll(polled);
  }

  /** A client whose connection is gone and that has read what was on its way misses nothing either, as
      long as it is behind by no more than the limit: it reconnects, and holds the whole log. */
  lemma ReconnectedClientCatchesUp(limit: nat, start: int, actions: seq<Action>)
    requires start >= 0
    requires var w := Run(limit, start, actions);
      && w.client.Reading? && !w.client.link.open && w.client.link.wire == []
      && |w.log| - w.cursor <= limit
    ensures var w := Run(limit, start, actions);
      var done := Deliver(Step(Step(w, NoticeEnd(EndOfStream)), Connect(None)), Behind(w));
      && done.cursor == |w.log|
      && start <= |w.log|
      && done.received == Numbered(w.log)[start..]
  {
    hide Run, Deliver;
    RunOK(limit, start, actions);
    var w := Run(limit, start, actions);
    var waiting := Step(w, NoticeEnd(EndOfStream));
    StepOK(w, NoticeEnd(EndOfStream));
    StepOK(waiting, Connect(None));
    var back := Step(waiting, Connect(None));
    assert back.client.link.pending == Numbered(w.log)[w.cursor..];
    DeliverAll(back);
  }
}
