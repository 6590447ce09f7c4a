/**
 The chat server's room and sessions, as strands.

 The room and each session have a strand: a queue of posted handlers that run one at a time, in the
 order in which they were posted.  Handlers of different strands interleave in any order, and so
 do the three calls `start` makes outside any strand and the single posts `broadcast_now` makes.
 A read or a write is an operation that completes at some later time, well or badly, and then posts
 its handler.

 `accepted`, `sent`, `joinedAt`, `leftAt` and `log` are history variables: no step reads them.
 `fault` is set when a write or read is started while another one of the session is under way, or
 when the outbox is empty where the code takes its front.
 */
module ChatServer {
  import opened Prelude
  import opened WireLines

  const MAX_LINE := 4096

  datatype Msg = Direct(text: string) | Room(text: string)

  datatype ReadResult = ReadError | Line(raw: string)

  /** A handler on a session's strand. */
  datatype Task = Deliver(m: Msg) | ReadDone(r: ReadResult) | WriteDone(ok: bool)

  /** A handler on the room's strand. */
  datatype RoomTask = Join(id: nat, text: string) | Leave(id: nat, text: string) | Broadcast(text: string)

  datatype Write = NoWrite | Writing(m: Msg) | Written(m: Msg)

  datatype Read = NoRead | Reading | Ready

  /** How far `start` has come. */
  datatype Stage = Fresh | JoinPosted | Welcomed | Started

  datatype Session = Session(
    guest: string, remote: string, stage: Stage, name: string, stopped: bool,
    outbox: seq<Msg>, write: Write, read: Read, tasks: seq<Task>,
    accepted: seq<Msg>, sent: seq<Msg>, joinedAt: Option<nat>, leftAt: Option<nat>)

  /** The room is in the middle of `broadcast_now`, with these sessions still to serve. */
  datatype Busy = Busy(text: string, left: set<nat>)

  datatype State = State(
    room: seq<RoomTask>, members: set<nat>, busy: Option<Busy>, sessions: seq<Session>, log: seq<string>, fault: bool)

  // ---------------------------------------------------------------- announcements

  function JoinLine(guest: string, remote: string): string { ServerLine(guest + " joined from " + remote) }

  function LeftLine(ss: Session): string { ServerLine(ss.name + " left") }

  // ---------------------------------------------------------------- handlers of a session

  /** What a handler leaves behind: the session, what it posts to the room, and whether it went well. */
  datatype Turn = Turn(ss: Session, posts: seq<RoomTask>, ok: bool)

  function DoWrite(ss: Session): Turn {
    if ss.write.NoWrite? && ss.outbox != [] then Turn(ss.(write := Writing(ss.outbox[0])), [], true)
    else Turn(ss, [], false)
  }

  function DoRead(ss: Session, posts: seq<RoomTask>): Turn {
    if ss.read.NoRead? then Turn(ss.(read := Reading), posts, true) else Turn(ss, posts, false)
  }

  function Stop(ss: Session, i: nat, text: string): Turn {
    if ss.stopped then Turn(ss, [], true) else Turn(ss.(stopped := true), [Leave(i, text)], true)
  }

  function OnDeliver(ss: Session, m: Msg): Turn {
    if ss.stopped then Turn(ss, [], true)
    else
      var ss1 := ss.(outbox := ss.outbox + [m], accepted := ss.accepted + [m]);
      if ss.outbox == [] then DoWrite(ss1) else Turn(ss1, [], true)
  }

  function OnWritten(ss: Session, i: nat, ok: bool): Turn {
    var ss1 := ss.(write := NoWrite);
    if !ok then Stop(ss1, i, LeftLine(ss1))
    else if ss1.outbox == [] then Turn(ss1, [], false)
    else
      var ss2 := ss1.(outbox := ss1.outbox[1..], sent := ss1.sent + [ss1.outbox[0]]);
      if ss2.outbox != [] then DoWrite(ss2) else Turn(ss2, [], true)
  }

  function OnRead(ss: Session, i: nat, r: ReadResult): Turn {
    var ss1 := ss.(read := NoRead);
    if r.ReadError? then Stop(ss1, i, LeftLine(ss1))
    else if |r.raw| > MAX_LINE then
      Stop(ss1.(tasks := ss1.tasks + [Deliver(Direct(ServerLine("message too large; closing connection")))]), i,
           ServerLine(ss1.name + " was disconnected after sending an oversized message"))
    else OnLine(ss1, i, TrimLine(FirstLine(r.raw)))
  }

  function OnLine(ss: Session, i: nat, line: string): Turn {
    if line == "" then DoRead(ss, [])
    else if line == "/quit" then Stop(ss, i, LeftLine(ss))
    else if "/name " <= line then
      var newName := TrimRight(TrimLeft(line[6..]));
      if newName != "" then DoRead(ss.(name := newName), [Broadcast(ServerLine(ss.name + " is now " + newName))])
      else DoRead(ss, [])
    else DoRead(ss, [Broadcast(WireLine(ss.name + ": " + line))])
  }

  /** The first handler of the session's strand runs. */
  function Handle(ss: Session, i: nat): Turn
    requires ss.tasks != []
  {
    var rest := ss.(tasks := ss.tasks[1..]);
    match ss.tasks[0]
    case Deliver(m) => OnDeliver(rest, m)
    case WriteDone(ok) => OnWritten(rest, i, ok)
    case ReadDone(r) => OnRead(rest, i, r)
  }

  // ---------------------------------------------------------------- the steps

  datatype Step =
    | Start(i: nat)
    | RunRoom
    | PostTo(i: nat)
    | RunSession(i: nat)
    | ReadCompletes(i: nat, r: ReadResult)
    | WriteCompletes(i: nat, ok: bool)

  function With(s: State, i: nat, ss: Session): State
    requires i < |s.sessions|
  {
    s.(sessions := s.sessions[i := ss])
  }

  function Next(s: State, step: Step): State {
    match step
    case RunRoom => StepRoom(s)
    case Start(i) => if i < |s.sessions| then StepStart(s, i) else s
    case PostTo(i) => if i < |s.sessions| then StepPost(s, i) else s
    case RunSession(i) => if i < |s.sessions| && s.sessions[i].tasks != [] then StepSession(s, i) else s
    case ReadCompletes(i, r) =>
      if i < |s.sessions| && s.sessions[i].read.Reading? then
        With(s, i, Posted(s.sessions[i].(read := Ready), ReadDone(r)))
      else s
    case WriteCompletes(i, ok) =>
      if i < |s.sessions| && s.sessions[i].write.Writing? then
        With(s, i, Posted(s.sessions[i].(write := Written(s.sessions[i].write.m)), WriteDone(ok)))
      else s
  }

  function Posted(ss: Session, task: Task): Session { ss.(tasks := ss.tasks + [task]) }

  /** The three calls of `start`, which runs outside the session's strand. */
  function StepStart(s: State, i: nat): State
    requires i < |s.sessions|
  {
    var ss := s.sessions[i];
    match ss.stage
    case Fresh => With(s, i, ss.(stage := JoinPosted)).(room := s.room + [Join(i, JoinLine(ss.guest, ss.remote))])
    case JoinPosted =>
      With(s, i, Posted(ss.(stage := Welcomed),
                        Deliver(Direct(ServerLine("connected as " + ss.guest + ". Commands: /name <name>, /quit")))))
    case Welcomed => With(s, i, ss.(stage := Started, read := Reading))
    case Started => s
  }

  function StepSession(s: State, i: nat): State
    requires i < |s.sessions| && s.sessions[i].tasks != []
  {
    var turn := Handle(s.sessions[i], i);
    With(s, i, turn.ss).(room := s.room + turn.posts, fault := s.fault || !turn.ok)
  }

  /** The room's strand: end a broadcast that has served everybody, or run the first handler up to its loop. */
  function StepRoom(s: State): State {
    if s.busy.Some? then if s.busy.value.left == {} then s.(busy := None) else s
    else if s.room == [] then s
    else
      var s1 := s.(room := s.room[1..]);
      match s.room[0]
      case Join(i, text) =>
        var s2 := Announce(s1.(members := s1.members + {i}), text);
        if i < |s.sessions| then With(s2, i, s.sessions[i].(joinedAt := Some(|s.log|))) else s2
      case Leave(i, text) =>
        if i in s.members && text != "" then
          var s2 := Announce(s1.(members := s1.members - {i}), text);
          if i < |s.sessions| then With(s2, i, s.sessions[i].(leftAt := Some(|s.log|))) else s2
        else s1.(members := s1.members - {i})
      case Broadcast(text) => Announce(s1, text)
  }

  function Announce(s: State, text: string): State {
    s.(busy := Some(Busy(text, s.members)), log := s.log + [text])
  }

  /** One turn of the loop of `broadcast_now`: post the message to one more session. */
  function StepPost(s: State, i: nat): State
    requires i < |s.sessions|
  {
    if s.busy.Some? && i in s.busy.value.left then
      With(s, i, Posted(s.sessions[i], Deliver(Room(s.busy.value.text))))
        .(busy := Some(s.busy.value.(left := s.busy.value.left - {i})))
    else s
  }

  /** A client that connected but whose session has not started. */
  function NewSession(guest: string, remote: string): Session {
    Session(guest, remote, Fresh, guest, false, [], NoWrite, NoRead, [], [], [], None, None)
  }

  datatype Client = Client(guest: string, remote: string)

  function Init(clients: seq<Client>): State {
    State([], {}, None,
          seq(|clients|, i requires 0 <= i < |clients| => NewSession(clients[i].guest, clients[i].remote)), [], false)
  }

  function Run(s: State, steps: seq<Step>): State
    decreases |steps|
  {
    if steps == [] then s else Run(Next(s, steps[0]), steps[1..])
  }

  // ---------------------------------------------------------------- one session

  function Writes(tasks: seq<Task>): nat {
    if tasks == [] then 0 else (if tasks[0].WriteDone? then 1 else 0) + Writes(tasks[1..])
  }

  function Reads(tasks: seq<Task>): nat {
    if tasks == [] then 0 else (if tasks[0].ReadDone? then 1 else 0) + Reads(tasks[1..])
  }

  /** The texts of the room's messages among these. */
  function FromRoom(ms: seq<Msg>): seq<string> {
    if ms == [] then []
    else FromRoom(ms[..|ms| - 1]) + if ms[|ms| - 1].Room? then [ms[|ms| - 1].text] else []
  }

  /** The texts of the room's messages that are posted to the strand. */
  function Coming(tasks: seq<Task>): seq<string> {
    if tasks == [] then []
    else (if tasks[0].Deliver? && tasks[0].m.Room? then [tasks[0].m.text] else []) + Coming(tasks[1..])
  }

  lemma {:induction false} TasksAfter(tasks: seq<Task>, task: Task)
    ensures Writes(tasks + [task]) == Writes(tasks) + if task.WriteDone? then 1 else 0
    ensures Reads(tasks + [task]) == Reads(tasks) + if task.ReadDone? then 1 else 0
    ensures Coming(tasks + [task]) == Coming(tasks) + if task.Deliver? && task.m.Room? then [task.m.text] else []
  {
    if tasks == [] {
      assert Coming([]) == [] && Coming([task][1..]) == [];
    } else {
      assert (tasks + [task])[0] == tasks[0] && (tasks + [task])[1..] == tasks[1..] + [task];
      TasksAfter(tasks[1..], task);
    }
  }

  lemma FromRoomAfter(ms: seq<Msg>, m: Msg)
    ensures FromRoom(ms + [m]) == FromRoom(ms) + if m.Room? then [m.text] else []
  {
    assert (ms + [m])[..|ms|] == ms;
  }

  /** One write at a time, always of the front, and one is under way whenever there is something to send. */
  predicate WriteOk(ss: Session) {
    && Writes(ss.tasks) == (if ss.write.Written? then 1 else 0)
    && (!ss.write.NoWrite? ==> ss.outbox != [] && ss.write.m == ss.outbox[0])
    && (!ss.stopped ==> (ss.write.NoWrite? <==> ss.outbox == []))
    && ss.sent + ss.outbox == ss.accepted
  }

  predicate ReadOk(ss: Session) {
    && Reads(ss.tasks) == (if ss.read.Ready? then 1 else 0)
    && (!ss.stage.Started? ==> ss.read.NoRead?)
  }

  predicate SessionOk(ss: Session) {
    && WriteOk(ss) && ReadOk(ss)
    && (ss.stage.Fresh? ==> ss == NewSession(ss.guest, ss.remote))
  }

  /** What the session accepted from the room and is about to accept is this part of the broadcast order. */
  predicate Hears(ss: Session, part: seq<string>) {
    if ss.stopped then FromRoom(ss.accepted) <= part else FromRoom(ss.accepted) + Coming(ss.tasks) == part
  }

  predicate SameHistory(ss: Session, ss': Session) {
    && ss'.guest == ss.guest && ss'.remote == ss.remote && ss'.stage == ss.stage
    && ss'.joinedAt == ss.joinedAt && ss'.leftAt == ss.leftAt
  }

  /** A handler keeps the session in order, posts `leave` exactly when it stops the session, and stops it for good. */
  predicate TurnOk(ss: Session, i: nat, turn: Turn) {
    && turn.ok && SessionOk(turn.ss) && SameHistory(ss, turn.ss)
    && (ss.stopped ==> turn.ss.stopped && turn.ss.accepted == ss.accepted)
    && (if turn.ss.stopped && !ss.stopped
        then |turn.posts| == 1 && turn.posts[0].Leave? && turn.posts[0].id == i && turn.posts[0].text != ""
        else turn.posts == [] || (|turn.posts| == 1 && turn.posts[0].Broadcast?))
  }

  lemma DeliverOk(ss: Session, i: nat, part: seq<string>)
    requires SessionOk(ss) && ss.tasks != [] && ss.tasks[0].Deliver? && Hears(ss, part)
    ensures TurnOk(ss, i, Handle(ss, i)) && Hears(Handle(ss, i).ss, part)
  {
    var m := ss.tasks[0].m;
    if !ss.stopped {
      AcceptHears(ss, m, part);
      assert ss.sent + (ss.outbox + [m]) == (ss.sent + ss.outbox) + [m];
      assert ss.outbox == [] ==> (ss.outbox + [m])[0] == m;
      assert ss.outbox != [] ==> (ss.outbox + [m])[0] == ss.outbox[0];
    }
  }

  lemma AcceptHears(ss: Session, m: Msg, part: seq<string>)
    requires ss.tasks != [] && ss.tasks[0] == Deliver(m) && FromRoom(ss.accepted) + Coming(ss.tasks) == part
    ensures FromRoom(ss.accepted + [m]) + Coming(ss.tasks[1..]) == part
  {
    FromRoomAfter(ss.accepted, m);
    var heard, rest := FromRoom(ss.accepted), Coming(ss.tasks[1..]);
    assert m.Room? ==> (heard + [m.text]) + rest == heard + ([m.text] + rest);
    assert m.Direct? ==> heard + [] == heard && [] + rest == rest;
  }

  /** A session in the middle of a handler. */
  lemma StopOk(ss: Session, i: nat, text: string, part: seq<string>)
    requires ReadOk(ss) && Hears(ss, part) && !ss.stage.Fresh? && text != "" && WriteOk(ss.(stopped := true))
    ensures TurnOk(ss, i, Stop(ss, i, text)) && Hears(Stop(ss, i, text).ss, part)
  {}

  lemma WrittenOk(ss: Session, i: nat, part: seq<string>)
    requires SessionOk(ss) && ss.tasks != [] && ss.tasks[0].WriteDone? && Hears(ss, part)
    ensures TurnOk(ss, i, Handle(ss, i)) && Hears(Handle(ss, i).ss, part)
  {
    var ss1 := ss.(tasks := ss.tasks[1..], write := NoWrite);
    if !ss.tasks[0].ok {
      StopOk(ss1, i, LeftLine(ss1), part);
    } else {
      assert (ss1.sent + [ss1.outbox[0]]) + ss1.outbox[1..] == ss1.sent + ss1.outbox;
    }
  }

  lemma LineOk(ss: Session, i: nat, line: string, part: seq<string>)
    requires WriteOk(ss) && ReadOk(ss) && ss.stage.Started? && ss.read.NoRead? && Hears(ss, part)
    ensures TurnOk(ss, i, OnLine(ss, i, line)) && Hears(OnLine(ss, i, line).ss, part)
  {
    if line == "/quit" { StopOk(ss, i, LeftLine(ss), part); }
    else if "/name " <= line && line != "" {
      var newName := TrimRight(TrimLeft(line[6..]));
      if newName != "" {
        ReadAgainOk(ss.(name := newName), i, [Broadcast(ServerLine(ss.name + " is now " + newName))], part);
      } else { ReadAgainOk(ss, i, [], part); }
    }
    else if line == "" { ReadAgainOk(ss, i, [], part); }
    else { ReadAgainOk(ss, i, [Broadcast(WireLine(ss.name + ": " + line))], part); }
  }

  lemma ReadAgainOk(ss: Session, i: nat, posts: seq<RoomTask>, part: seq<string>)
    requires WriteOk(ss) && ReadOk(ss) && ss.stage.Started? && ss.read.NoRead? && Hears(ss, part)
    requires posts == [] || (|posts| == 1 && posts[0].Broadcast?)
    ensures TurnOk(ss, i, DoRead(ss, posts)) && Hears(DoRead(ss, posts).ss, part)
  {}

  lemma OversizedOk(ss: Session, i: nat, notice: Task, text: string, part: seq<string>)
    requires WriteOk(ss) && ReadOk(ss) && ss.stage.Started? && Hears(ss, part) && text != ""
    requires notice.Deliver? && notice.m.Direct?
    ensures var ss' := ss.(tasks := ss.tasks + [notice]);
      TurnOk(ss', i, Stop(ss', i, text)) && Hears(Stop(ss', i, text).ss, part)
  {
    TasksAfter(ss.tasks, notice);
    StopOk(ss.(tasks := ss.tasks + [notice]), i, text, part);
  }

  lemma ReadingOk(ss: Session, i: nat, part: seq<string>)
    requires SessionOk(ss) && ss.tasks != [] && ss.tasks[0].ReadDone? && Hears(ss, part)
    ensures TurnOk(ss, i, Handle(ss, i)) && Hears(Handle(ss, i).ss, part)
  {
    var ss1 := ss.(tasks := ss.tasks[1..], read := NoRead);
    var r := ss.tasks[0].r;
    if r.ReadError? {
      StopOk(ss1, i, LeftLine(ss1), part);
    } else if |r.raw| > MAX_LINE {
      OversizedOk(ss1, i, Deliver(Direct(ServerLine("message too large; closing connection"))),
                  ServerLine(ss1.name + " was disconnected after sending an oversized message"), part);
    } else {
      LineOk(ss1, i, TrimLine(FirstLine(r.raw)), part);
    }
  }

  lemma HandleOk(ss: Session, i: nat, part: seq<string>)
    requires SessionOk(ss) && ss.tasks != [] && Hears(ss, part)
    ensures TurnOk(ss, i, Handle(ss, i)) && Hears(Handle(ss, i).ss, part)
  {
    match ss.tasks[0]
    case Deliver(_) => DeliverOk(ss, i, part);
    case WriteDone(_) => WrittenOk(ss, i, part);
    case ReadDone(_) => ReadingOk(ss, i, part);
  }

  // ---------------------------------------------------------------- the room

  /** The joins (true) and leaves (false) of session i that wait on the room's strand. */
  function Own(room: seq<RoomTask>, i: nat): seq<bool> {
    if room == [] then []
    else (if room[0].Broadcast? || room[0].id != i then [] else [room[0].Join?]) + Own(room[1..], i)
  }

  lemma {:induction false} OwnAfter(room: seq<RoomTask>, task: RoomTask, i: nat)
    ensures Own(room + [task], i) == Own(room, i) + if task.Broadcast? || task.id != i then [] else [task.Join?]
  {
    var own := if task.Broadcast? || task.id != i then [] else [task.Join?];
    if room == [] {
      assert Own([task], i) == own + Own([task][1..], i);
    } else {
      assert (room + [task])[0] == room[0] && (room + [task])[1..] == room[1..] + [task];
      OwnAfter(room[1..], task, i);
      var first := if room[0].Broadcast? || room[0].id != i then [] else [room[0].Join?];
      assert Own(room + [task], i) == first + (Own(room[1..], i) + own);
    }
  }

  /** One join before at most one leave, as far as they have not taken effect yet. */
  function Expected(ss: Session): seq<bool> {
    (if !ss.stage.Fresh? && ss.joinedAt.None? then [true] else [])
    + if ss.stopped && ss.leftAt.None? then [false] else []
  }

  function Serving(s: State, i: nat): bool { s.busy.Some? && i in s.busy.value.left }

  /** Up to where in the broadcast order messages have been posted to session i. */
  function End(s: State, i: nat): int
    requires i < |s.sessions|
  {
    if s.sessions[i].leftAt.Some? then s.sessions[i].leftAt.value else |s.log| - if Serving(s, i) then 1 else 0
  }

  /** The part of the broadcast order posted to session i. */
  function Part(s: State, i: nat): seq<string>
    requires i < |s.sessions|
    requires s.sessions[i].joinedAt.Some? ==> s.sessions[i].joinedAt.value <= End(s, i) <= |s.log|
  {
    if s.sessions[i].joinedAt.None? then [] else s.log[s.sessions[i].joinedAt.value..End(s, i)]
  }

  predicate RoomOk(s: State, i: nat)
    requires i < |s.sessions|
  {
    var ss := s.sessions[i];
    && Own(s.room, i) == Expected(ss)
    && (i in s.members <==> ss.joinedAt.Some? && ss.leftAt.None?)
    && (Serving(s, i) ==> i in s.members)
    && (ss.joinedAt.Some? ==>
          !ss.stage.Fresh? && ss.joinedAt.value < |s.log| && s.log[ss.joinedAt.value] == JoinLine(ss.guest, ss.remote))
    && (ss.leftAt.Some? ==> ss.joinedAt.Some? && ss.stopped && ss.joinedAt.value < ss.leftAt.value <= |s.log|)
  }

  predicate HearOk(s: State, i: nat)
    requires i < |s.sessions| && RoomOk(s, i)
  {
    Hears(s.sessions[i], Part(s, i))
  }

  predicate PostOk(s: State, task: RoomTask) {
    match task
    case Join(i, text) => i < |s.sessions| && text == JoinLine(s.sessions[i].guest, s.sessions[i].remote)
    case Leave(i, text) => i < |s.sessions| && text != ""
    case Broadcast(_) => true
  }

  ghost predicate Ok(s: State) {
    && !s.fault
    && (s.busy.Some? ==> s.log != [] && s.log[|s.log| - 1] == s.busy.value.text && s.busy.value.left <= s.members)
    && (forall i :: i in s.members ==> i < |s.sessions|)
    && (forall k :: 0 <= k < |s.room| ==> PostOk(s, s.room[k]))
    && (forall i :: 0 <= i < |s.sessions| ==> SessionOk(s.sessions[i]))
    && (forall i :: 0 <= i < |s.sessions| ==> RoomOk(s, i))
    && forall i :: 0 <= i < |s.sessions| ==> HearOk(s, i)
  }

  lemma InitOk(clients: seq<Client>)
    ensures Ok(Init(clients))
  {}

  type Sound = s: State | Ok(s) witness Init([])

  /** A step of session i that posts at most one task to the room. */
  ghost predicate StepsAside(s: State, s': State, i: nat, posts: seq<RoomTask>)
    requires i < |s.sessions|
  {
    && |s'.sessions| == |s.sessions| && s'.sessions == s.sessions[i := s'.sessions[i]]
    && SameIdentity(s.sessions[i], s'.sessions[i])
    && s'.room == s.room + posts && |posts| <= 1
    && (posts != [] ==> PostOk(s', posts[0]) && (posts[0].Broadcast? || posts[0].id == i))
    && s'.members == s.members && s'.log == s.log && s'.fault == s.fault
    && (s'.busy == s.busy
        || (s.busy.Some? && s'.busy == Some(s.busy.value.(left := s.busy.value.left - {i}))))
  }

  predicate SameIdentity(ss: Session, ss': Session) { ss'.guest == ss.guest && ss'.remote == ss.remote }

  function OwnPosts(posts: seq<RoomTask>): seq<bool> {
    if posts == [] || posts[0].Broadcast? then [] else [posts[0].Join?]
  }

  lemma OwnAside(s: State, s': State, i: nat, posts: seq<RoomTask>, j: nat)
    requires i < |s.sessions| && StepsAside(s, s', i, posts)
    ensures Own(s'.room, j) == Own(s.room, j) + if j == i then OwnPosts(posts) else []
  {
    if posts == [] { assert s'.room == s.room; } else { assert posts == [posts[0]]; OwnAfter(s.room, posts[0], j); }
  }

  lemma OtherAside(s: State, s': State, i: nat, posts: seq<RoomTask>, j: nat)
    requires i < |s.sessions| && StepsAside(s, s', i, posts)
    requires j < |s.sessions| && j != i && RoomOk(s, j) && HearOk(s, j)
    ensures RoomOk(s', j) && HearOk(s', j)
  {
    OwnAside(s, s', i, posts, j);
    assert s'.sessions[j] == s.sessions[j] && Serving(s', j) == Serving(s, j);
    assert Part(s', j) == Part(s, j);
  }

  lemma OthersAside(s: Sound, s': State, i: nat, posts: seq<RoomTask>)
    requires i < |s.sessions| && StepsAside(s, s', i, posts)
    ensures forall j :: 0 <= j < |s.sessions| && j != i ==> RoomOk(s', j) && HearOk(s', j)
  {
    forall j | 0 <= j < |s.sessions| && j != i ensures RoomOk(s', j) && HearOk(s', j) {
      assert RoomOk(s, j) && HearOk(s, j);
      OtherAside(s, s', i, posts, j);
    }
  }

  lemma PostsAside(s: Sound, s': State, i: nat, posts: seq<RoomTask>)
    requires i < |s.sessions| && StepsAside(s, s', i, posts)
    ensures forall k :: 0 <= k < |s'.room| ==> PostOk(s', s'.room[k])
  {
    forall k | 0 <= k < |s'.room| ensures PostOk(s', s'.room[k]) {
      if k < |s.room| { assert PostOk(s, s.room[k]) && s'.room[k] == s.room[k]; }
      else { assert s'.room[k] == posts[0]; }
    }
  }

  lemma Settle(s: Sound, s': State, i: nat, posts: seq<RoomTask>)
    requires i < |s.sessions| && StepsAside(s, s', i, posts)
    requires SessionOk(s'.sessions[i])
    requires Own(s'.room, i) == Own(s.room, i) + OwnPosts(posts) ==> RoomOk(s', i) && HearOk(s', i)
    ensures Ok(s')
  {
    OwnAside(s, s', i, posts, i);
    PostsAside(s, s', i, posts);
    OthersAside(s, s', i, posts);
  }

  lemma SessionStepKeeps(s: Sound, i: nat) returns (s': Sound)
    requires i < |s.sessions| && s.sessions[i].tasks != []
    ensures s' == StepSession(s, i)
  {
    assert RoomOk(s, i) && HearOk(s, i);
    HandleOk(s.sessions[i], i, Part(s, i));
    s' := TurnKeeps(s, i, Handle(s.sessions[i], i));
  }

  lemma TurnKeeps(s: Sound, i: nat, turn: Turn) returns (s': Sound)
    requires i < |s.sessions| && RoomOk(s, i)
    requires TurnOk(s.sessions[i], i, turn) && Hears(turn.ss, Part(s, i))
    ensures s' == With(s, i, turn.ss).(room := s.room + turn.posts, fault := s.fault || !turn.ok)
  {
    var n := With(s, i, turn.ss).(room := s.room + turn.posts, fault := s.fault || !turn.ok);
    TurnAside(s, n, i, turn);
    Settle(s, n, i, turn.posts);
    s' := n;
  }

  lemma TurnAside(s: State, s': State, i: nat, turn: Turn)
    requires i < |s.sessions| && RoomOk(s, i) && !s.fault && TurnOk(s.sessions[i], i, turn)
    requires s' == With(s, i, turn.ss).(room := s.room + turn.posts, fault := s.fault || !turn.ok)
    ensures StepsAside(s, s', i, turn.posts) && SessionOk(s'.sessions[i])
    ensures Own(s'.room, i) == Own(s.room, i) + OwnPosts(turn.posts) ==> RoomOk(s', i) && Part(s', i) == Part(s, i)
  {}

  /** A step of session i that neither hears nor posts anything. */
  lemma LocalKeeps(s: Sound, i: nat, ss': Session) returns (s': Sound)
    requires i < |s.sessions| && SessionOk(ss')
    requires var ss := s.sessions[i];
      && !ss.stage.Fresh? && !ss'.stage.Fresh? && SameHistory(ss, ss'.(stage := ss.stage))
      && ss'.stopped == ss.stopped && ss'.accepted == ss.accepted && Coming(ss'.tasks) == Coming(ss.tasks)
    ensures s' == With(s, i, ss')
  {
    var n := With(s, i, ss');
    assert RoomOk(s, i) && HearOk(s, i);
    assert n.room == s.room + [];
    assert Part(n, i) == Part(s, i);
    Settle(s, n, i, []);
    s' := n;
  }

  lemma StartKeeps(s: Sound, i: nat) returns (s': Sound)
    requires i < |s.sessions|
    ensures s' == StepStart(s, i)
  {
    var ss := s.sessions[i];
    assert SessionOk(ss);
    match ss.stage
    case Fresh =>
      assert RoomOk(s, i) && HearOk(s, i);
      Settle(s, StepStart(s, i), i, [Join(i, JoinLine(ss.guest, ss.remote))]);
      s' := StepStart(s, i);
    case JoinPosted =>
      var task := Deliver(Direct(ServerLine("connected as " + ss.guest + ". Commands: /name <name>, /quit")));
      TasksAfter(ss.tasks, task);
      s' := LocalKeeps(s, i, Posted(ss.(stage := Welcomed), task));
    case Welcomed => s' := LocalKeeps(s, i, ss.(stage := Started, read := Reading));
    case Started => s' := s;
  }

  lemma PostKeeps(s: Sound, i: nat) returns (s': Sound)
    requires i < |s.sessions|
    ensures s' == StepPost(s, i)
  {
    var n := StepPost(s, i);
    var ss := s.sessions[i];
    if Serving(s, i) {
      assert RoomOk(s, i) && HearOk(s, i);
      TasksAfter(ss.tasks, Deliver(Room(s.busy.value.text)));
      PartLonger(s, n, i);
      HearsMore(ss, n.sessions[i], s.busy.value.text, Part(s, i));
      Settle(s, n, i, []);
    }
    s' := n;
  }

  lemma PartLonger(s: State, s': State, i: nat)
    requires i < |s.sessions| && RoomOk(s, i) && Serving(s, i) && s.log != [] && s.log[|s.log| - 1] == s.busy.value.text
    requires i < |s'.sessions| && !Serving(s', i) && s'.log == s.log
    requires s'.sessions[i].joinedAt == s.sessions[i].joinedAt && s'.sessions[i].leftAt == s.sessions[i].leftAt
    ensures s'.sessions[i].joinedAt.value <= End(s', i) <= |s'.log|
    ensures Part(s', i) == Part(s, i) + [s.busy.value.text]
  {
    var from := s.sessions[i].joinedAt.value;
    assert s.log[from..] == s.log[from..|s.log| - 1] + [s.log[|s.log| - 1]];
  }

  lemma HearsMore(ss: Session, ss': Session, text: string, part: seq<string>)
    requires Hears(ss, part) && ss'.accepted == ss.accepted && ss'.stopped == ss.stopped
    requires Coming(ss'.tasks) == Coming(ss.tasks) + [text]
    ensures Hears(ss', part + [text])
  {
    var heard := FromRoom(ss.accepted);
    assert heard + (Coming(ss.tasks) + [text]) == (heard + Coming(ss.tasks)) + [text];
  }

  lemma ReadCompletesKeeps(s: Sound, i: nat, r: ReadResult) returns (s': Sound)
    requires i < |s.sessions| && s.sessions[i].read.Reading?
    ensures s' == Next(s, ReadCompletes(i, r))
  {
    var ss := s.sessions[i];
    assert SessionOk(ss);
    TasksAfter(ss.tasks, ReadDone(r));
    s' := LocalKeeps(s, i, Posted(ss.(read := Ready), ReadDone(r)));
  }

  lemma WriteCompletesKeeps(s: Sound, i: nat, ok: bool) returns (s': Sound)
    requires i < |s.sessions| && s.sessions[i].write.Writing?
    ensures s' == Next(s, WriteCompletes(i, ok))
  {
    var ss := s.sessions[i];
    assert SessionOk(ss);
    TasksAfter(ss.tasks, WriteDone(ok));
    s' := LocalKeeps(s, i, Posted(ss.(write := Written(ss.write.m)), WriteDone(ok)));
  }

  // ---------------------------------------------------------------- the room's own steps

  /** While the room is not broadcasting, announcing a text puts off the members by one message and nobody else. */
  lemma PartKept(s: State, s': State, j: nat)
    requires j < |s.sessions| && RoomOk(s, j) && s.busy.None?
    requires |s'.sessions| == |s.sessions| && s'.sessions[j] == s.sessions[j]
    requires |s'.log| == |s.log| + 1 && s.log < s'.log && s'.busy.Some? && s'.busy.value.left == s'.members
    requires j in s'.members <==> j in s.members
    requires Own(s'.room, j) == Own(s.room, j)
    ensures RoomOk(s', j) && Part(s', j) == Part(s, j)
  {
    var ss := s.sessions[j];
    assert ss.joinedAt.Some? ==> s'.log[ss.joinedAt.value] == s.log[ss.joinedAt.value];
    assert ss.joinedAt.Some? ==> End(s', j) == End(s, j);
    assert ss.joinedAt.Some? ==> s'.log[ss.joinedAt.value..End(s, j)] == s.log[ss.joinedAt.value..End(s, j)];
    assert Part(s', j) == Part(s, j);
  }

  /** The room runs its first handler, about session i if it is a join or a leave. */
  ghost predicate Announces(s: State, s': State, text: string) {
    && s.busy.None? && s.room != [] && s'.room == s.room[1..]
    && s'.log == s.log + [text] && s'.busy == Some(Busy(text, s'.members)) && s'.fault == s.fault
    && |s'.sessions| == |s.sessions|
  }

  lemma RoomSettle(s: Sound, s': State, text: string, i: nat)
    requires Announces(s, s', text)
    requires forall j :: 0 <= j < |s.sessions| && j != i ==>
      s'.sessions[j] == s.sessions[j] && (j in s'.members <==> j in s.members)
    requires s.room[0].Broadcast? || s.room[0].id == i
    requires i < |s.sessions| ==>
      SameIdentity(s.sessions[i], s'.sessions[i]) && SessionOk(s'.sessions[i]) && RoomOk(s', i) && HearOk(s', i)
    requires forall j :: j in s'.members ==> j < |s.sessions|
    ensures Ok(s')
  {
    forall j | 0 <= j < |s.sessions| ensures RoomOk(s', j) && HearOk(s', j) {
      assert RoomOk(s, j) && HearOk(s, j);
      if j != i { PartKept(s, s', j); }
    }
    forall k | 0 <= k < |s'.room| ensures PostOk(s', s'.room[k]) {
      assert PostOk(s, s.room[k + 1]);
    }
  }

  lemma JoinKeeps(s: Sound, i: nat, text: string) returns (s': Sound)
    requires s.busy.None? && s.room != [] && s.room[0] == Join(i, text)
    ensures s' == StepRoom(s)
  {
    var n := StepRoom(s);
    assert PostOk(s, s.room[0]) && RoomOk(s, i) && HearOk(s, i);
    assert Own(s.room, i) == [true] + Own(s.room[1..], i) && Own(s.room, i)[0];
    assert Own(s.room[1..], i) == Own(s.room, i)[1..] == Expected(n.sessions[i]);
    assert End(n, i) == |s.log| && Part(n, i) == [];
    RoomSettle(s, n, text, i);
    s' := n;
  }

  /** A leave finds its session among the members. */
  lemma LeaveFindsMember(s: Sound, i: nat, text: string)
    requires s.room != [] && s.room[0] == Leave(i, text)
    ensures i < |s.sessions| && i in s.members && s.sessions[i].stopped && text != ""
  {
    assert PostOk(s, s.room[0]) && RoomOk(s, i) && SessionOk(s.sessions[i]);
    assert Own(s.room, i) == [false] + Own(s.room[1..], i);
    assert !Expected(s.sessions[i])[0];
  }

  lemma LeaveKeeps(s: Sound, i: nat, text: string) returns (s': Sound)
    requires s.busy.None? && s.room != [] && s.room[0] == Leave(i, text)
    ensures s' == StepRoom(s)
  {
    var n := StepRoom(s);
    LeaveFindsMember(s, i, text);
    assert RoomOk(s, i) && HearOk(s, i);
    assert Own(s.room, i) == [false] + Own(s.room[1..], i);
    assert Own(s.room[1..], i) == Own(s.room, i)[1..] == Expected(n.sessions[i]);
    var from := s.sessions[i].joinedAt.value;
    assert n.log[from..|s.log|] == s.log[from..|s.log|];
    assert Part(n, i) == Part(s, i);
    RoomSettle(s, n, text, i);
    s' := n;
  }

  lemma BroadcastKeeps(s: Sound, text: string) returns (s': Sound)
    requires s.busy.None? && s.room != [] && s.room[0] == Broadcast(text)
    ensures s' == StepRoom(s)
  {
    RoomSettle(s, StepRoom(s), text, |s.sessions|);
    s' := StepRoom(s);
  }

  lemma NobodyServed(s: State, j: nat)
    requires j < |s.sessions| && RoomOk(s, j) && HearOk(s, j) && s.busy.Some? && s.busy.value.left == {}
    ensures RoomOk(s.(busy := None), j) && HearOk(s.(busy := None), j)
  {
    assert Part(s.(busy := None), j) == Part(s, j);
  }

  lemma EndBroadcastKeeps(s: Sound) returns (s': Sound)
    requires s.busy.Some? && s.busy.value.left == {}
    ensures s' == s.(busy := None)
  {
    var n := s.(busy := None);
    forall j | 0 <= j < |s.sessions| ensures RoomOk(n, j) && HearOk(n, j) {
      assert RoomOk(s, j) && HearOk(s, j);
      NobodyServed(s, j);
    }
    forall k | 0 <= k < |n.room| ensures PostOk(n, n.room[k]) { assert PostOk(s, s.room[k]); }
    s' := n;
  }

  lemma RoomStepKeeps(s: Sound) returns (s': Sound)
    ensures s' == StepRoom(s)
  {
    s' := s;
    if s.busy.Some? {
      if s.busy.value.left == {} { s' := EndBroadcastKeeps(s); }
    } else if s.room != [] {
      match s.room[0]
      case Join(i, text) => s' := JoinKeeps(s, i, text);
      case Leave(i, text) => s' := LeaveKeeps(s, i, text);
      case Broadcast(text) => s' := BroadcastKeeps(s, text);
    }
  }
}
