/** The interview worker's session lifecycle: the process-wide join counter
    that limits each participant identity to three sessions, the fixed order
    of steps in which an admitted session is started, and the guarded
    cancellation of the delayed shutdown. Calls into LiveKit, the realtime
    model and Airtable are not modelled; each one is recorded as an `Event`
    in the session's trace, in the order the source makes them. */
module Agent {

  /** Joins allowed per identity (`MAX_LIMIT`). */
  const MaxLimit: nat := 3
  /** Seconds before an admitted session is shut down. */
  const ShutdownDelay: nat := 10 * 60
  /** A participant with this display name is never recorded. */
  const TestName: string := "TEST"
  const TrackingStatus: string := "assessment completed"
  const ShutdownReason: string := "Timeout reached"

  datatype Participant = Participant(identity: string, name: string)

  /** The room-composite egress request that starts a recording. */
  datatype EgressRequest = EgressRequest(
    roomName: string,
    layout: string,
    preset: string,
    audioOnly: bool,
    filenamePrefix: string,
    playlistName: string,
    livePlaylistName: string,
    segmentDuration: nat)

  /** An externally visible step of a session. */
  datatype Event =
    | Connected(audioOnly: bool)
    | ParticipantJoined(identity: string)
    | RoomShutdown(reason: string)
    | RoomDeleted(room: string)
    | RecordingStarted(request: EgressRequest)
    | AgentBuilt
    | AgentStarted(room: string, identity: string)
    | ReplyRequested
    | ShutdownArmed(delay: nat)
    | ShutdownCallbackRegistered
    | TrackingUpdated(email: string, status: string)

  // ---------------------------------------------------------------------------
  // The join counter

  /** A `defaultdict(int)` lookup: identities never seen count 0. */
  function CountOf(counts: map<string, nat>, identity: string): nat
  {
    if identity in counts then counts[identity] else 0
  }

  /** The counts after one join of `identity`. */
  function Bump(counts: map<string, nat>, identity: string): (r: map<string, nat>)
    ensures CountOf(r, identity) == CountOf(counts, identity) + 1
    ensures forall other :: other != identity ==> CountOf(r, other) == CountOf(counts, other)
    ensures r.Keys == counts.Keys + {identity}
  {
    counts[identity := CountOf(counts, identity) + 1]
  }

  /** The counts after a run of joins, in order. */
  function Tally(counts: map<string, nat>, joins: seq<string>): map<string, nat>
  {
    if joins == [] then counts else Bump(Tally(counts, joins[..|joins| - 1]), joins[|joins| - 1])
  }

  /** Whether each join of a run was admitted. */
  function Admissions(counts: map<string, nat>, joins: seq<string>): (r: seq<bool>)
    ensures |r| == |joins|
  {
    if joins == [] then []
    else
      var last := |joins| - 1;
      Admissions(counts, joins[..last]) + [CountOf(Tally(counts, joins[..last]), joins[last]) + 1 <= MaxLimit]
  }

  function JoinsOf(joins: seq<string>, identity: string): nat
  {
    if joins == [] then 0
    else JoinsOf(joins[..|joins| - 1], identity) + if joins[|joins| - 1] == identity then 1 else 0
  }

  /** Every join adds exactly one to its own identity, so counts never decrease. */
  lemma {:induction false} TallyCount(counts: map<string, nat>, joins: seq<string>, identity: string)
    ensures CountOf(Tally(counts, joins), identity) == CountOf(counts, identity) + JoinsOf(joins, identity)
  {
    if joins != [] {
      TallyCount(counts, joins[..|joins| - 1], identity);
    }
  }

  /** The k-th join of a run is admitted exactly when it is at most the
      `MaxLimit`-th join of its identity, counting the joins before the run. */
  lemma {:induction false} AdmissionAt(counts: map<string, nat>, joins: seq<string>, k: nat)
    requires k < |joins|
    ensures Admissions(counts, joins)[k]
            <==> CountOf(counts, joins[k]) + JoinsOf(joins[..k + 1], joins[k]) <= MaxLimit
  {
    var last := |joins| - 1;
    if k == last {
      TallyCount(counts, joins[..last], joins[k]);
      assert joins[..k + 1][..last] == joins[..last];
    } else {
      AdmissionAt(counts, joins[..last], k);
      assert joins[..last][..k + 1] == joins[..k + 1];
    }
  }

  /** In a fresh process, the first three joins of an identity are admitted
      and every later one is rejected. */
  lemma FreshProcessAdmissions(joins: seq<string>, k: nat)
    requires k < |joins|
    ensures Admissions(map[], joins)[k] <==> JoinsOf(joins[..k + 1], joins[k]) <= 3
  {
    AdmissionAt(map[], joins, k);
  }

  /** The process-wide `candidate_tracker`. */
  class CandidateTracker {
    var counts: map<string, nat>

    constructor ()
      ensures counts == map[]
    {
      counts := map[];
    }

    function Count(identity: string): nat
      reads this
    {
      CountOf(counts, identity)
    }

    /** One join of `identity`; returns its count afterwards. */
    method Increment(identity: string) returns (count: nat)
      modifies this
      ensures count == old(Count(identity)) + 1
      ensures counts == Bump(old(counts), identity)
    {
      count := Count(identity) + 1;
      counts := counts[identity := count];
    }
  }

  // ---------------------------------------------------------------------------
  // The delayed shutdown

  /** The task running the delayed shutdown; `done` and `cancelRequested`
      follow asyncio's `Task.done()` and `Task.cancel()`. */
  class ShutdownTask {
    const delay: nat
    var done: bool
    var cancelRequested: bool

    constructor (delay: nat)
      ensures this.delay == delay && !done && !cancelRequested
    {
      this.delay := delay;
      done := false;
      cancelRequested := false;
    }

    /** `Task.cancel()`: a task that has finished is left alone. */
    method Cancel() returns (cancelled: bool)
      modifies this
      ensures cancelled == !old(done) && done == old(done)
      ensures cancelRequested == (old(cancelRequested) || !old(done))
    {
      cancelled := !done;
      if !done {
        cancelRequested := true;
      }
    }

    /** The event loop finishes the task: its sleep ran out, or a requested
        cancellation was delivered. */
    method Finish()
      modifies this
      ensures done && cancelRequested == old(cancelRequested)
    {
      done := true;
    }
  }

  // ---------------------------------------------------------------------------
  // The steps of a session

  /** The storage prefix of a recording: the room, then a fresh unique token. */
  function RecordingPrefix(room: string, token: string): (p: string)
    ensures |p| == |room| + |token| + 2
    ensures p[..|room| + 1] == room + "/" && p[|p| - 1] == '/'
    ensures p[|room| + 1..|p| - 1] == token
  {
    room + "/" + token + "/"
  }

  function RecordingRequest(room: string, token: string): EgressRequest
  {
    EgressRequest(room, "speaker", "H264_720P_30", false, RecordingPrefix(room, token),
                  "my-playlist.m3u8", "my-live-playlist.m3u8", 10)
  }

  /** The kinds of step whose number of occurrences the source fixes. */
  datatype Kind = RoomShutdownKind | RecordingKind | AgentStartKind | ShutdownArmKind | TrackingKind

  predicate IsKind(e: Event, kind: Kind)
  {
    match kind
    case RoomShutdownKind => e.RoomShutdown?
    case RecordingKind => e.RecordingStarted?
    case AgentStartKind => e.AgentStarted?
    case ShutdownArmKind => e.ShutdownArmed?
    case TrackingKind => e.TrackingUpdated?
  }

  /** The number of steps of one kind. */
  function CountOfKind(steps: seq<Event>, kind: Kind): (n: nat)
    ensures n <= |steps|
    ensures n > 0 <==> exists i :: 0 <= i < |steps| && IsKind(steps[i], kind)
  {
    if steps == [] then 0
    else (if IsKind(steps[0], kind) then 1 else 0) + CountOfKind(steps[1..], kind)
  }

  lemma {:induction false} CountOfKindAppend(a: seq<Event>, b: seq<Event>, kind: Kind)
    ensures CountOfKind(a + b, kind) == CountOfKind(a, kind) + CountOfKind(b, kind)
  {
    if a == [] {
      assert a + b == b;
    } else {
      assert (a + b)[1..] == a[1..] + b;
      CountOfKindAppend(a[1..], b, kind);
    }
  }

  lemma CountOfKindFrom(steps: seq<Event>, i: nat, kind: Kind)
    requires i < |steps|
    ensures CountOfKind(steps[i..], kind)
            == (if IsKind(steps[i], kind) then 1 else 0) + CountOfKind(steps[i + 1..], kind)
  {
    assert steps[i..][1..] == steps[i + 1..];
  }

  /** The steps of an admitted session from building the agent on. */
  function StartSteps(room: string, p: Participant): seq<Event>
  {
    [AgentBuilt, AgentStarted(room, p.identity), ReplyRequested, ShutdownArmed(ShutdownDelay),
     ShutdownCallbackRegistered, TrackingUpdated(p.identity, TrackingStatus)]
  }

  function RecordingSteps(room: string, p: Participant, token: string): seq<Event>
  {
    if p.name != TestName then [RecordingStarted(RecordingRequest(room, token))] else []
  }

  function ShutdownSteps(room: string): seq<Event>
  {
    [RoomShutdown(ShutdownReason), RoomDeleted(room)]
  }

  /** The trace of one session in `room` whose participant `p` reached join
      number `count`; `token` is the unique token of its recording. */
  function SessionSteps(room: string, p: Participant, count: nat, token: string): seq<Event>
  {
    [Connected(true), ParticipantJoined(p.identity)]
    + if count > MaxLimit then ShutdownSteps(room)
      else RecordingSteps(room, p, token) + StartSteps(room, p)
  }

  /** How often one kind of step occurs in a session: a rejected session
      shuts down once and does nothing else; an admitted one never shuts down
      on its own and starts the agent, arms the shutdown and updates the
      tracking record once each, and is recorded once unless its participant
      is the test participant. */
  function ExpectedCount(kind: Kind, admitted: bool, isTestParticipant: bool): nat
  {
    match kind
    case RoomShutdownKind => if admitted then 0 else 1
    case RecordingKind => if admitted && !isTestParticipant then 1 else 0
    case _ => if admitted then 1 else 0
  }

  lemma StartStepsCount(room: string, p: Participant, kind: Kind)
    ensures CountOfKind(StartSteps(room, p), kind)
            == if kind.AgentStartKind? || kind.ShutdownArmKind? || kind.TrackingKind? then 1 else 0
  {
    var start := StartSteps(room, p);
    assert start[0..] == start && start[6..] == [];
    CountOfKindFrom(start, 5, kind);
    CountOfKindFrom(start, 4, kind);
    CountOfKindFrom(start, 3, kind);
    CountOfKindFrom(start, 2, kind);
    CountOfKindFrom(start, 1, kind);
    CountOfKindFrom(start, 0, kind);
  }

  lemma ShutdownStepsCount(room: string, kind: Kind)
    ensures CountOfKind(ShutdownSteps(room), kind) == if kind.RoomShutdownKind? then 1 else 0
  {
    var down := ShutdownSteps(room);
    assert down[0..] == down && down[2..] == [];
    CountOfKindFrom(down, 1, kind);
    CountOfKindFrom(down, 0, kind);
  }

  lemma {:induction false} SessionStepCount(room: string, p: Participant, count: nat, token: string, kind: Kind)
    ensures CountOfKind(SessionSteps(room, p, count, token), kind)
            == ExpectedCount(kind, count <= MaxLimit, p.name == TestName)
  {
    var head := [Connected(true), ParticipantJoined(p.identity)];
    assert head[0..] == head && head[2..] == [];
    CountOfKindFrom(head, 1, kind);
    CountOfKindFrom(head, 0, kind);
    if count > MaxLimit {
      ShutdownStepsCount(room, kind);
      CountOfKindAppend(head, ShutdownSteps(room), kind);
    } else {
      var rec, start := RecordingSteps(room, p, token), StartSteps(room, p);
      if rec != [] {
        assert rec[0..] == rec && rec[1..] == [];
        CountOfKindFrom(rec, 0, kind);
      }
      StartStepsCount(room, p, kind);
      assert head + (rec + start) == (head + rec) + start;
      CountOfKindAppend(head + rec, start, kind);
      CountOfKindAppend(head, rec, kind);
    }
  }

  /** In an admitted session each step happens strictly before the next:
      recording (if any), agent built, agent started, first reply, shutdown
      armed, shutdown callback registered, tracking record updated. */
  lemma AdmittedOrder(room: string, p: Participant, count: nat, token: string)
    requires count <= MaxLimit
    ensures var steps := SessionSteps(room, p, count, token);
            var n := |steps|;
            && n == 8 + |RecordingSteps(room, p, token)|
            && steps[n - 6..] == StartSteps(room, p)
            && (p.name != TestName ==> steps[2] == RecordingStarted(RecordingRequest(room, token)))
  {
  }

  // ---------------------------------------------------------------------------
  // One session

  /** `AgentSessionManager`: one per job, sharing the process-wide tracker. */
  class AgentSessionManager {
    const room: string
    const tracker: CandidateTracker
    var shutdownTask: ShutdownTask?
    var trace: seq<Event>

    constructor (room: string, tracker: CandidateTracker)
      ensures this.room == room && this.tracker == tracker
      ensures shutdownTask == null && trace == []
    {
      this.room := room;
      this.tracker := tracker;
      shutdownTask := null;
      trace := [];
    }

    /** `init`: connect, wait for `p`, count the join, and either shut the
        session down or record it, start the agent, arm the shutdown and
        update the tracking record. `token` is the fresh unique token. */
    method Init(p: Participant, token: string)
      requires shutdownTask == null && trace == []
      modifies this, tracker
      ensures tracker.counts == Bump(old(tracker.counts), p.identity)
      ensures trace == SessionSteps(room, p, tracker.Count(p.identity), token)
      ensures shutdownTask == null <==> tracker.Count(p.identity) > MaxLimit
      ensures shutdownTask != null ==>
                fresh(shutdownTask) && shutdownTask.delay == ShutdownDelay &&
                !shutdownTask.done && !shutdownTask.cancelRequested
    {
      trace := trace + [Connected(true)];
      trace := trace + [ParticipantJoined(p.identity)];
      var count := tracker.Increment(p.identity);
      if count > MaxLimit {
        Shutdown();
        return;
      }
      StartAdmitted(p, token);
    }

    /** The rest of `init` for an admitted join: record unless the participant
        is the test participant, start the agent and ask for its first reply,
        arm the shutdown, register its cancellation, update the tracking record. */
    method StartAdmitted(p: Participant, token: string)
      requires shutdownTask == null
      modifies this`trace, this`shutdownTask
      ensures trace == old(trace) + RecordingSteps(room, p, token) + StartSteps(room, p)
      ensures fresh(shutdownTask) && shutdownTask.delay == ShutdownDelay
      ensures !shutdownTask.done && !shutdownTask.cancelRequested
    {
      if p.name != TestName {
        SetupRecording(token);
      }
      ghost var recorded := trace;
      trace := trace + [AgentBuilt];
      trace := trace + [AgentStarted(room, p.identity)];
      trace := trace + [ReplyRequested];
      shutdownTask := new ShutdownTask(ShutdownDelay);
      trace := trace + [ShutdownArmed(ShutdownDelay)];
      trace := trace + [ShutdownCallbackRegistered];
      UpdateAirtable(p.identity);
      assert trace == recorded + StartSteps(room, p);
    }

    method SetupRecording(token: string)
      modifies this`trace
      ensures trace == old(trace) + [RecordingStarted(RecordingRequest(room, token))]
    {
      trace := trace + [RecordingStarted(RecordingRequest(room, token))];
    }

    /** `shutdown`, once its sleep is over. */
    method Shutdown()
      modifies this`trace
      ensures trace == old(trace) + ShutdownSteps(room)
    {
      trace := trace + [RoomShutdown(ShutdownReason)];
      trace := trace + [RoomDeleted(room)];
    }

    method UpdateAirtable(email: string)
      modifies this`trace
      ensures trace == old(trace) + [TrackingUpdated(email, TrackingStatus)]
    {
      trace := trace + [TrackingUpdated(email, TrackingStatus)];
    }

    /** `cancel_shutdown_task`: cancels the armed task unless there is none
        or it has already finished. */
    method CancelShutdownTask()
      modifies shutdownTask
      ensures shutdownTask != null && old(shutdownTask.done) ==> unchanged(shutdownTask)
      ensures shutdownTask != null && !old(shutdownTask.done) ==>
                shutdownTask.cancelRequested && !shutdownTask.done
    {
      if shutdownTask != null && !shutdownTask.done {
        var _ := shutdownTask.Cancel();
      }
    }
  }

  /** Four sessions of the same identity in a fresh process: three are
      admitted, the fourth is shut down without starting anything. */
  method FourJoins()
  {
    var tracker := new CandidateTracker();
    var alice := Participant("alice@x.com", "Alice");
    var i := 0;
    while i < 3
      invariant 0 <= i <= 3
      invariant tracker.Count(alice.identity) == i
    {
      var m := new AgentSessionManager("room", tracker);
      m.Init(alice, "t");
      assert m.shutdownTask != null;
      i := i + 1;
    }
    var m := new AgentSessionManager("room", tracker);
    m.Init(alice, "t");
    assert m.shutdownTask == null;
    assert m.trace[2..] == ShutdownSteps("room");
  }
}
