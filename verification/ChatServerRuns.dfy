/** What every run of the chat server does: one order of messages for all, one write at a time for each. */
module ChatServerRuns {
  import opened Prelude
  import opened WireLines
  import opened ChatServer

  lemma StepKeeps(s: Sound, step: Step) returns (s': Sound)
    ensures s' == Next(s, step)
  {
    s' := s;
    match step
    case RunRoom => s' := RoomStepKeeps(s);
    case Start(i) => if i < |s.sessions| { s' := StartKeeps(s, i); }
    case PostTo(i) => if i < |s.sessions| { s' := PostKeeps(s, i); }
    case RunSession(i) => if i < |s.sessions| && s.sessions[i].tasks != [] { s' := SessionStepKeeps(s, i); }
    case ReadCompletes(i, r) =>
      if i < |s.sessions| && s.sessions[i].read.Reading? { s' := ReadCompletesKeeps(s, i, r); }
    case WriteCompletes(i, ok) =>
      if i < |s.sessions| && s.sessions[i].write.Writing? { s' := WriteCompletesKeeps(s, i, ok); }
  }

  // ---------------------------------------------------------------- main results

  lemma {:induction false} RunsOn(s: Sound, steps: seq<Step>) returns (s': Sound)
    ensures s' == Run(s, steps)
    decreases |steps|
  {
    s' := s;
    if steps != [] {
      s' := StepKeeps(s, steps[0]);
      s' := RunsOn(s', steps[1..]);
    }
  }

  /** Every run of any number of clients keeps the invariant. */
  lemma EveryRun(clients: seq<Client>, steps: seq<Step>) returns (s: Sound)
    ensures s == Run(Init(clients), steps)
  {
    InitOk(clients);
    s := RunsOn(Init(clients), steps);
  }

  /**
   At most one write is in flight, always of the front of the outbox, and while the session is open one is in flight
   whenever the outbox holds anything.  What was sent is a prefix of what was accepted.
   */
  lemma OneWriteInFlight(clients: seq<Client>, steps: seq<Step>, i: nat)
    requires i < |Run(Init(clients), steps).sessions|
    ensures !Run(Init(clients), steps).fault
    ensures var ss := Run(Init(clients), steps).sessions[i];
      && (!ss.write.NoWrite? ==> ss.outbox != [] && ss.write.m == ss.outbox[0])
      && (!ss.stopped ==> (!ss.write.NoWrite? <==> ss.outbox != []))
      && ss.sent + ss.outbox == ss.accepted
  {
    var s := EveryRun(clients, steps);
    assert SessionOk(s.sessions[i]);
  }

  /** What a session accepted of the room is the broadcast order from its own join announcement on, up to some point. */
  lemma HearsBroadcastOrder(clients: seq<Client>, steps: seq<Step>, i: nat)
    requires i < |Run(Init(clients), steps).sessions|
    ensures var s := Run(Init(clients), steps); var ss := s.sessions[i];
      if ss.joinedAt.None? then FromRoom(ss.accepted) == []
      else
        && ss.joinedAt.value < |s.log| && s.log[ss.joinedAt.value] == JoinLine(ss.guest, ss.remote)
        && FromRoom(ss.accepted) <= s.log[ss.joinedAt.value..]
  {
    var s := EveryRun(clients, steps);
    var ss := s.sessions[i];
    assert RoomOk(s, i) && HearOk(s, i);
    if ss.joinedAt.Some? {
      PrefixOf(FromRoom(ss.accepted), if ss.stopped then [] else Coming(ss.tasks), Part(s, i), ss.stopped);
      SliceIsPrefix(s.log, ss.joinedAt.value, End(s, i));
    }
  }

  lemma PrefixOf(heard: seq<string>, coming: seq<string>, part: seq<string>, stopped: bool)
    requires if stopped then heard <= part else heard + coming == part
    ensures heard <= part
  {}

  lemma SliceIsPrefix(log: seq<string>, from: nat, to: nat)
    requires from <= to <= |log|
    ensures log[from..to] <= log[from..]
  {}

  /** Members agree on the order: where two sessions' messages overlap they are the same. */
  lemma MembersAgree(clients: seq<Client>, steps: seq<Step>, i: nat, j: nat, k: nat)
    requires var s := Run(Init(clients), steps);
      i < |s.sessions| && j < |s.sessions| && s.sessions[i].joinedAt.Some? && s.sessions[j].joinedAt.Some?
    requires var s := Run(Init(clients), steps);
      && s.sessions[i].joinedAt.value <= k < s.sessions[i].joinedAt.value + |FromRoom(s.sessions[i].accepted)|
      && s.sessions[j].joinedAt.value <= k < s.sessions[j].joinedAt.value + |FromRoom(s.sessions[j].accepted)|
    ensures var s := Run(Init(clients), steps);
      FromRoom(s.sessions[i].accepted)[k - s.sessions[i].joinedAt.value]
      == FromRoom(s.sessions[j].accepted)[k - s.sessions[j].joinedAt.value]
  {
    HearsBroadcastOrder(clients, steps, i);
    HearsBroadcastOrder(clients, steps, j);
  }

  predicate RoomIdle(s: State) { s.room == [] && s.busy.None? }

  /** With the room and its strand idle, an open session has accepted all since its join, and a stopped one is gone. */
  lemma NothingIsMissed(s: Sound, i: nat)
    requires i < |s.sessions| && RoomIdle(s) && s.sessions[i].tasks == [] && !s.sessions[i].stage.Fresh?
    ensures var ss := s.sessions[i];
      && ss.joinedAt.Some? && ss.joinedAt.value < |s.log|
      && (if ss.stopped then i !in s.members else i in s.members && FromRoom(ss.accepted) == s.log[ss.joinedAt.value..])
  {
    assert RoomOk(s, i) && HearOk(s, i);
    assert Own(s.room, i) == [];
    var ss := s.sessions[i];
    assert |Expected(ss)| == 0;
    if !ss.stopped { assert FromRoom(ss.accepted) + [] == FromRoom(ss.accepted); }
  }

  /** The join takes effect before the leave, and only a stopped session leaves. */
  lemma JoinsBeforeLeaving(clients: seq<Client>, steps: seq<Step>, i: nat)
    requires i < |Run(Init(clients), steps).sessions|
    ensures var s := Run(Init(clients), steps); var ss := s.sessions[i];
      && (ss.leftAt.Some? ==> ss.stopped && ss.joinedAt.Some? && ss.joinedAt.value < ss.leftAt.value)
      && (i in s.members <==> ss.joinedAt.Some? && ss.leftAt.None?)
      && (Own(s.room, i) == [] || Own(s.room, i) == [true] || Own(s.room, i) == [true, false]
          || Own(s.room, i) == [false])
      && (false in Own(s.room, i) ==> ss.stopped && ss.leftAt.None?)
      && (true in Own(s.room, i) ==> ss.joinedAt.None?)
  {
    var s := EveryRun(clients, steps);
    assert RoomOk(s, i);
  }

  /** No handler of a stopped session accepts anything. */
  lemma StoppedTurn(ss: Session, i: nat)
    requires ss.stopped && ss.tasks != []
    ensures Handle(ss, i).ss.stopped && Handle(ss, i).ss.accepted == ss.accepted
  {}

  /** A step leaves what a stopped session accepted as it is. */
  lemma StoppedStep(s: State, step: Step, i: nat)
    requires i < |s.sessions| && s.sessions[i].stopped
    ensures var s' := Next(s, step);
      |s'.sessions| == |s.sessions| && s'.sessions[i].stopped && s'.sessions[i].accepted == s.sessions[i].accepted
  {
    if step.RunSession? && step.i == i && s.sessions[i].tasks != [] { StoppedTurn(s.sessions[i], i); }
  }

  lemma {:induction false} StoppedStaysSilent(s: State, steps: seq<Step>, i: nat)
    requires i < |s.sessions| && s.sessions[i].stopped
    ensures var s' := Run(s, steps);
      |s'.sessions| == |s.sessions| && s'.sessions[i].accepted == s.sessions[i].accepted
    decreases |steps|
  {
    if steps != [] {
      StoppedStep(s, steps[0], i);
      StoppedStaysSilent(Next(s, steps[0]), steps[1..], i);
    }
  }

  const NOTICE := ServerLine("message too large; closing connection")

  /** The notice about an oversized line is posted and dropped: its session is stopped before the strand comes to it. */
  lemma OversizeNoticeIsLost(s: State, i: nat, raw: string, steps: seq<Step>)
    requires i < |s.sessions| && s.sessions[i].tasks != []
    requires s.sessions[i].tasks[0] == ReadDone(Line(raw)) && |raw| > MAX_LINE
    ensures var s1 := Next(s, RunSession(i));
      |s1.sessions| == |s.sessions| && s1.sessions[i].tasks == s.sessions[i].tasks[1..] + [Deliver(Direct(NOTICE))]
    ensures var s' := Run(Next(s, RunSession(i)), steps);
      |s'.sessions| == |s.sessions| && s'.sessions[i].accepted == s.sessions[i].accepted
  {
    StoppedStaysSilent(Next(s, RunSession(i)), steps, i);
  }

  function Welcome(guest: string): string {
    ServerLine("connected as " + guest + ". Commands: /name <name>, /quit")
  }

  /** One client connects and sends an oversized line, and its strand has delivered the welcome. */
  function OversizeRun(raw: string): seq<Step> {
    [Start(0)] + ([Start(0)] + ([Start(0)] + ([ReadCompletes(0, Line(raw))] + ([RunSession(0)] + []))))
  }

  lemma OversizeRunEnds(guest: string, remote: string, raw: string)
    ensures var s := Run(Init([Client(guest, remote)]), OversizeRun(raw));
      && |s.sessions| == 1 && !s.sessions[0].stopped && s.sessions[0].tasks == [ReadDone(Line(raw))]
      && s.sessions[0].accepted == [Direct(Welcome(guest))]
  {
    var s0 := Init([Client(guest, remote)]);
    var s1 := Next(s0, Start(0));
    var s2 := Next(s1, Start(0));
    var s3 := Next(s2, Start(0));
    var s4 := Next(s3, ReadCompletes(0, Line(raw)));
    assert s4.sessions[0].tasks == [Deliver(Direct(Welcome(guest))), ReadDone(Line(raw))];
    var last := [RunSession(0)] + [];
    RunFirst(s0, Start(0), [Start(0)] + ([Start(0)] + ([ReadCompletes(0, Line(raw))] + last)));
    RunFirst(s1, Start(0), [Start(0)] + ([ReadCompletes(0, Line(raw))] + last));
    RunFirst(s2, Start(0), [ReadCompletes(0, Line(raw))] + last);
    RunFirst(s3, ReadCompletes(0, Line(raw)), last);
    RunFirst(s4, RunSession(0), []);
  }

  lemma RunFirst(s: State, first: Step, rest: seq<Step>)
    ensures Run(s, [first] + rest) == Run(Next(s, first), rest)
  {
    assert ([first] + rest)[1..] == rest;
  }

  /**
   A run of the server in which this happens: the session is open when its strand comes to the oversized line, the
   notice is posted to the strand, and however the run goes on the session has accepted the welcome and nothing else.
   */
  lemma OversizedClientIsNotTold(guest: string, remote: string, raw: string, steps: seq<Step>)
    requires |raw| > MAX_LINE
    ensures var s := Run(Init([Client(guest, remote)]), OversizeRun(raw));
      && |s.sessions| == 1 && !s.sessions[0].stopped
      && |Next(s, RunSession(0)).sessions| == 1
      && Next(s, RunSession(0)).sessions[0].tasks == [Deliver(Direct(NOTICE))]
    ensures var s' := Run(Next(Run(Init([Client(guest, remote)]), OversizeRun(raw)), RunSession(0)), steps);
      && |s'.sessions| == 1 && s'.sessions[0].accepted == [Direct(Welcome(guest))]
      && Direct(NOTICE) !in s'.sessions[0].accepted
  {
    OversizeRunEnds(guest, remote, raw);
    OversizeNoticeIsLost(Run(Init([Client(guest, remote)]), OversizeRun(raw)), 0, raw, steps);
    WelcomeIsNoNotice(guest);
  }

  lemma WelcomeIsNoNotice(guest: string)
    ensures Welcome(guest) != NOTICE
  {
    var welcome := "connected as " + guest + ". Commands: /name <name>, /quit";
    var notice := "message too large; closing connection";
    assert welcome[0] == 'c' && welcome[|welcome| - 1] == 't' && notice[0] == 'm' && notice[|notice| - 1] == 'n';
    ServerLineShows(welcome);
    ServerLineShows(notice);
    StartsDiffer("[server] ", welcome, notice, "\n");
  }

  lemma StartsDiffer(front: string, a: string, b: string, end: string)
    requires a != "" && b != "" && a[0] != b[0]
    ensures front + a + end != front + b + end
  {
    assert (front + a + end)[|front|] == a[0] && (front + b + end)[|front|] == b[0];
  }

  // ---------------------------------------------------------------- everything asked for is announced

  /** What the step posts to the room's strand. */
  function PostsOf(s: State, step: Step): seq<RoomTask> {
    var s' := Next(s, step);
    if step.RunRoom? || |s'.room| < |s.room| then [] else s'.room[|s.room|..]
  }

  /** Everything that a run posts to the room's strand, in order. */
  function Asked(s: State, steps: seq<Step>): seq<RoomTask>
    decreases |steps|
  {
    if steps == [] then [] else PostsOf(s, steps[0]) + Asked(Next(s, steps[0]), steps[1..])
  }

  function Texts(tasks: seq<RoomTask>): seq<string> {
    seq(|tasks|, k requires 0 <= k < |tasks| => tasks[k].text)
  }

  lemma TextsJoin(a: seq<RoomTask>, b: seq<RoomTask>)
    ensures Texts(a + b) == Texts(a) + Texts(b)
  {}

  /** The room announces the text of its first task, a leave included. */
  lemma RoomTells(s: Sound)
    ensures var s' := StepRoom(s); s'.log + Texts(s'.room) == s.log + Texts(s.room)
  {
    if s.busy.None? && s.room != [] {
      if s.room[0].Leave? { LeaveFindsMember(s, s.room[0].id, s.room[0].text); }
      assert Texts(s.room) == [s.room[0].text] + Texts(s.room[1..]);
      assert StepRoom(s).log == s.log + [s.room[0].text] && StepRoom(s).room == s.room[1..];
    }
  }

  lemma OthersPost(s: State, step: Step)
    requires !step.RunRoom?
    ensures var s' := Next(s, step); s'.log == s.log && s'.room == s.room + PostsOf(s, step)
  {
    if step.RunSession? && step.i < |s.sessions| && s.sessions[step.i].tasks != [] {
      assert Next(s, step).room == s.room + Handle(s.sessions[step.i], step.i).posts;
    }
  }

  lemma StepTells(s: Sound, step: Step)
    ensures var s' := Next(s, step); s'.log + Texts(s'.room) == s.log + Texts(s.room) + Texts(PostsOf(s, step))
  {
    if step.RunRoom? {
      RoomTells(s);
    } else {
      OthersPost(s, step);
      TextsJoin(s.room, PostsOf(s, step));
    }
  }

  lemma {:induction false} RunTells(s: Sound, steps: seq<Step>)
    ensures var s' := Run(s, steps); s'.log + Texts(s'.room) == s.log + Texts(s.room) + Texts(Asked(s, steps))
    decreases |steps|
  {
    if steps != [] {
      StepTells(s, steps[0]);
      var s1 := StepKeeps(s, steps[0]);
      RunTells(s1, steps[1..]);
      TextsJoin(PostsOf(s, steps[0]), Asked(s1, steps[1..]));
      Associates(s.log + Texts(s.room), Texts(PostsOf(s, steps[0])), Texts(Asked(s1, steps[1..])));
    } else {
      assert Texts(Asked(s, steps)) == [];
    }
  }

  lemma Associates(a: seq<string>, b: seq<string>, c: seq<string>)
    ensures a + b + c == a + (b + c)
  {}

  /** Every text that was posted to the room is announced, once and in the order of the posts, or still waits to be. */
  lemma AnnouncedInOrder(clients: seq<Client>, steps: seq<Step>)
    ensures var s := Run(Init(clients), steps); s.log + Texts(s.room) == Texts(Asked(Init(clients), steps))
  {
    var s := Init(clients);
    InitOk(clients);
    RunTells(s, steps);
    StartsEmpty(s, Texts(Asked(s, steps)));
  }

  lemma StartsEmpty(s: State, texts: seq<string>)
    requires s.log == [] && s.room == []
    ensures s.log + Texts(s.room) + texts == texts
  {}

  // ---------------------------------------------------------------- the strands run dry

  /** Nothing is left to run on any strand. */
  predicate Settled(s: State) {
    RoomIdle(s) && forall i :: 0 <= i < |s.sessions| ==> s.sessions[i].tasks == []
  }

  /** The handlers still to run after a read or write has completed. */
  function Completing(tasks: seq<Task>): nat { Reads(tasks) + Writes(tasks) }

  /** Of all sessions; only these can post anything to the room. */
  function Completions(sessions: seq<Session>): nat {
    if sessions == [] then 0
    else Completing(sessions[0].tasks) + Completions(sessions[1..])
  }

  function Waiting(sessions: seq<Session>): nat {
    if sessions == [] then 0 else |sessions[0].tasks| + Waiting(sessions[1..])
  }

  lemma {:induction false} CountsAfter(sessions: seq<Session>, i: nat, ss: Session)
    requires i < |sessions|
    ensures Completions(sessions[i := ss]) + Completing(sessions[i].tasks)
            == Completions(sessions) + Completing(ss.tasks)
    ensures Waiting(sessions[i := ss]) + |sessions[i].tasks| == Waiting(sessions) + |ss.tasks|
  {
    if i > 0 {
      assert sessions[i := ss][1..] == sessions[1..][i - 1 := ss];
      CountsAfter(sessions[1..], i - 1, ss);
    } else {
      assert sessions[0 := ss][1..] == sessions[1..];
    }
  }

  function BusyLeft(s: State): nat { if s.busy.None? then 0 else |s.busy.value.left| + 1 }

  /** A step of the strands alone: no read or write completes and no session starts. */
  predicate Internal(step: Step) { step.RunRoom? || step.PostTo? || step.RunSession? }

  /** Running the strands comes to an end. */
  predicate Nearer(s: State, s': State) {
    || Completions(s'.sessions) < Completions(s.sessions)
    || (Completions(s'.sessions) == Completions(s.sessions)
        && (|s'.room| < |s.room|
            || (|s'.room| == |s.room|
                && (BusyLeft(s') < BusyLeft(s)
                    || (BusyLeft(s') == BusyLeft(s) && Waiting(s'.sessions) < Waiting(s.sessions))))))
  }

  lemma ReadUses(ss: Session, i: nat)
    requires ss.tasks != [] && ss.tasks[0].ReadDone?
    ensures Completing(Handle(ss, i).ss.tasks) < Completing(ss.tasks)
  {
    var rest := ss.(tasks := ss.tasks[1..]);
    OnReadAdds(rest, i, ss.tasks[0].r);
  }

  /** `on_read` posts no more to its own strand than the notice. */
  lemma OnReadAdds(ss: Session, i: nat, r: ReadResult)
    ensures Completing(OnRead(ss, i, r).ss.tasks) == Completing(ss.tasks)
  {
    TasksAfter(ss.tasks, Deliver(Direct(ServerLine("message too large; closing connection"))));
    if r.Line? { OnLineAdds(ss.(read := NoRead), i, TrimLine(FirstLine(r.raw))); }
  }

  lemma OnLineAdds(ss: Session, i: nat, line: string)
    ensures OnLine(ss, i, line).ss.tasks == ss.tasks
  {}

  /** A handler uses up its task, and posts to the room or to itself only when a read or write has completed. */
  lemma HandlerUses(ss: Session, i: nat)
    requires ss.tasks != []
    ensures var turn := Handle(ss, i);
      if ss.tasks[0].Deliver? then turn.ss.tasks == ss.tasks[1..] && turn.posts == []
      else Completing(turn.ss.tasks) < Completing(ss.tasks)
  {
    if ss.tasks[0].ReadDone? { ReadUses(ss, i); }
  }

  lemma SessionNearer(s: State, i: nat)
    requires i < |s.sessions| && s.sessions[i].tasks != []
    ensures Nearer(s, Next(s, RunSession(i)))
  {
    var ss := s.sessions[i];
    HandlerUses(ss, i);
    CountsAfter(s.sessions, i, Handle(ss, i).ss);
    if ss.tasks[0].Deliver? { assert s.room + [] == s.room; }
  }

  lemma PostNearer(s: State, i: nat)
    requires i < |s.sessions| && Serving(s, i)
    ensures Nearer(s, Next(s, PostTo(i)))
  {
    var task := Deliver(Room(s.busy.value.text));
    TasksAfter(s.sessions[i].tasks, task);
    CountsAfter(s.sessions, i, Posted(s.sessions[i], task));
    assert s.busy.value.left == (s.busy.value.left - {i}) + {i};
  }

  lemma RoomNearer(s: State)
    requires if s.busy.Some? then s.busy.value.left == {} else s.room != []
    ensures Nearer(s, Next(s, RunRoom))
  {
    if s.busy.None? && !s.room[0].Broadcast? && s.room[0].id < |s.sessions| {
      var i := s.room[0].id;
      CountsAfter(s.sessions, i, s.sessions[i].(joinedAt := Some(|s.log|)));
      CountsAfter(s.sessions, i, s.sessions[i].(leftAt := Some(|s.log|)));
    }
  }

  /** Unless nothing is left to run, some strand has a step that brings the end nearer. */
  lemma SomeStrandRuns(s: Sound) returns (step: Step)
    requires !Settled(s)
    ensures Internal(step) && Nearer(s, Next(s, step))
  {
    if i: nat :| i < |s.sessions| && s.sessions[i].tasks != [] {
      step := RunSession(i);
      SessionNearer(s, i);
    } else if s.busy.Some? && s.busy.value.left != {} {
      var i :| i in s.busy.value.left;
      step := PostTo(i);
      PostNearer(s, i);
    } else {
      step := RunRoom;
      RoomNearer(s);
    }
  }

  /** From every reachable state the strands alone can run until nothing is left to run. */
  lemma {:induction false} SettlesDown(s: Sound) returns (steps: seq<Step>, s': Sound)
    ensures s' == Run(s, steps) && Settled(s') && forall k :: 0 <= k < |steps| ==> Internal(steps[k])
    decreases Completions(s.sessions), |s.room|, BusyLeft(s), Waiting(s.sessions)
  {
    if Settled(s) {
      steps, s' := [], s;
    } else {
      var step := SomeStrandRuns(s);
      var s1 := StepKeeps(s, step);
      var rest;
      rest, s' := SettlesDown(s1);
      steps := [step] + rest;
      RunFirst(s, step, rest);
    }
  }

  /**
   So nothing gets stuck: every run can go on, by its strands alone, to a state in which every text posted to the room
   has been announced, every open session has accepted all announcements since its own join, and every other one is out.
   */
  lemma EverybodyHears(clients: seq<Client>, steps: seq<Step>) returns (more: seq<Step>, s: State)
    ensures s == Run(Run(Init(clients), steps), more) && forall k :: 0 <= k < |more| ==> Internal(more[k])
    ensures Settled(s) && s.log == Texts(Asked(Init(clients), steps)) + Texts(Asked(Run(Init(clients), steps), more))
    ensures forall i :: 0 <= i < |s.sessions| && !s.sessions[i].stage.Fresh? ==> HeardAll(s, i)
  {
    var before := EveryRun(clients, steps);
    var after: Sound;
    more, after := SettlesDown(before);
    s := after;
    AnnouncedInOrder(clients, steps);
    RunTells(before, more);
    assert Texts([]) == [] && s.log + [] == s.log;
    forall i | 0 <= i < |s.sessions| && !s.sessions[i].stage.Fresh? ensures HeardAll(s, i) {
      NothingIsMissed(after, i);
    }
  }

  /** The session has joined, and has accepted every announcement since, or has been stopped and is out. */
  predicate HeardAll(s: State, i: nat)
    requires i < |s.sessions|
  {
    var ss := s.sessions[i];
    && ss.joinedAt.Some? && ss.joinedAt.value < |s.log|
    && if ss.stopped then i !in s.members else i in s.members && FromRoom(ss.accepted) == s.log[ss.joinedAt.value..]
  }

  // ---------------------------------------------------------------- what a handler does

  /** The session is stopped and the room is to announce this text. */
  predicate Ends(ss: Session, i: nat, turn: Turn, text: string) {
    turn.ss.stopped && turn.ss.read.NoRead? && turn.ss.name == ss.name && turn.posts == [Leave(i, text)]
  }

  /** The session reads on, under this name, and the room is to tell everybody these texts. */
  predicate ReadsOn(turn: Turn, name: string, texts: seq<string>) {
    && !turn.ss.stopped && turn.ss.read.Reading? && turn.ss.name == name && |turn.posts| == |texts|
    && forall k :: 0 <= k < |texts| ==> turn.posts[k] == Broadcast(texts[k])
  }

  /**
   What a completed read leads to, by the line that was read and, if that is a new name, the name without the space
   around it.  A read ends the session exactly on an error, an oversized line or "/quit".
   */
  lemma ReadingDecides(ss: Session, i: nat, line: string, newName: string)
    requires SessionOk(ss) && ss.tasks != [] && ss.tasks[0].ReadDone? && !ss.stopped
    requires ss.tasks[0].r.Line? ==> IsInputLine(ss.tasks[0].r.raw, line)
    requires "/name " <= line ==> IsStripped(line[6..], newName)
    ensures var r, turn := ss.tasks[0].r, Handle(ss, i);
      if r.ReadError? then Ends(ss, i, turn, "[server] " + ss.name + " left\n")
      else if |r.raw| > MAX_LINE then
        Ends(ss, i, turn, "[server] " + ss.name + " was disconnected after sending an oversized message\n")
      else if line == "" then ReadsOn(turn, ss.name, [])
      else if line == "/quit" then Ends(ss, i, turn, "[server] " + ss.name + " left\n")
      else if "/name " <= line then
        if newName == "" then ReadsOn(turn, ss.name, [])
        else ReadsOn(turn, newName, ["[server] " + ss.name + " is now " + newName + "\n"])
      else ReadsOn(turn, ss.name, [ss.name + ": " + line + "\n"])
  {
    var r := ss.tasks[0].r;
    LeftShows(ss.name);
    if r.Line? {
      OneInputLine(r.raw, line);
      TrimLineIs(FirstLine(r.raw));
      OversizedShows(ss.name);
      if "/name " <= line { RenameShows(ss.name, line, newName); }
      else if line != "" { SayingShows(ss.name, line); }
    }
  }

  lemma LeftShows(name: string)
    ensures ServerLine(name + " left") == "[server] " + name + " left\n"
  {
    var text := name + " left";
    assert text[|text| - 1] == 't';
    ServerLineShows(text);
    assert "[server] " + (name + " left") + "\n" == "[server] " + name + " left\n";
  }

  lemma OversizedShows(name: string)
    ensures ServerLine(name + " was disconnected after sending an oversized message")
            == "[server] " + name + " was disconnected after sending an oversized message\n"
  {
    var what := " was disconnected after sending an oversized message";
    var text := name + what;
    assert what[|what| - 1] == 'e' && text[|text| - 1] == 'e';
    ServerLineShows(text);
    assert what + "\n" == " was disconnected after sending an oversized message\n";
    assert "[server] " + (name + what) + "\n" == "[server] " + name + (what + "\n");
  }

  lemma RenameShows(name: string, line: string, newName: string)
    requires "/name " <= line && IsStripped(line[6..], newName)
    ensures newName == TrimRight(TrimLeft(line[6..]))
    ensures newName != "" ==>
      ServerLine(name + " is now " + newName) == "[server] " + name + " is now " + newName + "\n"
  {
    OneStripped(line[6..], newName);
    TrimRightIs(TrimLeft(line[6..]));
    if newName != "" {
      var text := name + " is now " + newName;
      assert text[|text| - 1] == newName[|newName| - 1];
      ServerLineShows(text);
      assert "[server] " + text == "[server] " + name + " is now " + newName;
    }
  }

  lemma SayingShows(name: string, line: string)
    requires line != "" && !IsLineEnd(line[|line| - 1])
    ensures WireLine(name + ": " + line) == name + ": " + line + "\n"
  {
    var text := name + ": " + line;
    assert text[|text| - 1] == line[|line| - 1];
    WireLineShows(text);
  }

  /** A line that is no command reaches the room as its sender typed it, with either line end. */
  lemma OrdinaryLineIsTold(ss: Session, i: nat, text: string, rest: string)
    requires SessionOk(ss) && ss.tasks != [] && ss.tasks[0].ReadDone? && !ss.stopped
    requires '\n' !in text && text != "" && text[|text| - 1] != '\r' && text != "/quit" && !("/name " <= text)
    requires ss.tasks[0].r in {Line(text + "\n" + rest), Line(text + "\r\n" + rest)} && |ss.tasks[0].r.raw| <= MAX_LINE
    ensures ReadsOn(Handle(ss, i), ss.name, [ss.name + ": " + text + "\n"])
  {
    LineEndings(text, rest);
    ReadingDecides(ss, i, text, "");
  }

  /** A completed write stops the session exactly if it failed; otherwise its message is sent and the next is due. */
  lemma WritingDecides(ss: Session, i: nat)
    requires SessionOk(ss) && ss.tasks != [] && ss.tasks[0].WriteDone? && !ss.stopped
    ensures ss.outbox != []
    ensures var turn := Handle(ss, i);
      if !ss.tasks[0].ok then
        turn.ss.stopped && turn.ss.sent == ss.sent && turn.posts == [Leave(i, "[server] " + ss.name + " left\n")]
      else
        && !turn.ss.stopped && turn.posts == [] && turn.ss.sent == ss.sent + [ss.outbox[0]]
        && turn.ss.outbox == ss.outbox[1..]
        && turn.ss.write == (if turn.ss.outbox == [] then NoWrite else Writing(turn.ss.outbox[0]))
  {
    LeftShows(ss.name);
    assert SessionOk(ss) && Writes(ss.tasks) > 0;
  }

  /** A posted message is accepted exactly if the session is open when its turn comes. */
  lemma DeliveryDecides(ss: Session, i: nat)
    requires ss.tasks != [] && ss.tasks[0].Deliver?
    ensures var turn := Handle(ss, i);
      && turn.ss.accepted == (if ss.stopped then ss.accepted else ss.accepted + [ss.tasks[0].m])
      && turn.ss.stopped == ss.stopped && turn.posts == []
  {}
}
