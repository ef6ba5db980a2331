/**
 * The console's HTTP client: one refresh of the session at a time, and one repeat of a request
 * that was answered 401. A step is what runs between two awaits; any number of requests may be
 * in progress.
 */
module ApiClient {
  import opened Options

  datatype Session = Session(token: nat)

  /** A call of `/auth/refresh`: outstanding, or over with a new session or with none. */
  datatype Flight = Outstanding | Renewed(session: Session) | Gone

  datatype Pc =
    | AwaitFresh(flight: nat, current: Session)    // expiring token, refresh awaited
    | First(session: Option<Session>)              // first send outstanding
    | AwaitRenew(flight: nat)                      // answered 401, refresh awaited
    | Second(flight: nat, renewed: Session)        // repeated once
    | Done

  /** What a send waited for: nothing, a refresh of an expiring session, or one after a 401. */
  datatype Via = Plain | Fresh(flight: nat, current: Session) | Repeat(flight: nat)

  /** A send of a request's own path. */
  datatype OwnSend = OwnSend(req: nat, session: Option<Session>, via: Via)

  datatype Client = Client(
    session: Option<Session>, refreshing: Option<nat>, flights: seq<Flight>,
    reqs: map<nat, Pc>, sends: seq<OwnSend>)

  /** How a refresh call ends. A failed network leaves the session in place. */
  datatype Landing = NewSession(session: Session) | Refused | NetworkDown

  datatype Step =
    | Begin(r: nat, expiring: bool, dead: bool)
    | Land(landing: Landing)
    | ResumeFresh(r: nat)
    | Reply1(r: nat, is401: bool, dead: bool)
    | ResumeRenew(r: nat)
    | Reply2(r: nat, is401: bool)
    | Lose(r: nat)                                 // the send fails on the network
    | SetSession(s: Option<Session>)               // sign-in, sign-out

  const INITIAL := Client(None, None, [], map[], [])

  predicate IsOver(c: Client, f: nat) {
    f < |c.flights| && !c.flights[f].Outstanding?
  }

  predicate Enabled(c: Client, step: Step) {
    match step
    case Begin(r, _, _) => r !in c.reqs
    case Land(_) => c.refreshing.Some? && c.refreshing.value < |c.flights|
    case ResumeFresh(r) => r in c.reqs && c.reqs[r].AwaitFresh? && IsOver(c, c.reqs[r].flight)
    case Reply1(r, _, _) => r in c.reqs && c.reqs[r].First?
    case ResumeRenew(r) => r in c.reqs && c.reqs[r].AwaitRenew? && IsOver(c, c.reqs[r].flight)
    case Reply2(r, _) => r in c.reqs && c.reqs[r].Second?
    case Lose(r) => r in c.reqs && (c.reqs[r].First? || c.reqs[r].Second?)
    case SetSession(_) => true
  }

  /** `refresh()`: joins the flight under way, gives up on a dead session, or starts a flight. */
  datatype Joined = Wait(client: Client, flight: nat) | NoSession(client: Client)

  function Refresh(c: Client, dead: bool): Joined {
    if c.refreshing.Some? then Wait(c, c.refreshing.value)
    else if c.session.None? || dead then NoSession(c.(session := None))
    else Wait(c.(refreshing := Some(|c.flights|), flights := c.flights + [Outstanding]), |c.flights|)
  }

  /** What a caller that waited with a usable session goes on with. */
  function SessionFrom(f: Flight, current: Session): Session {
    if f.Renewed? then f.session else current
  }

  function SetPc(c: Client, r: nat, pc: Pc): Client {
    c.(reqs := c.reqs[r := pc])
  }

  function SendFirst(c: Client, r: nat, s: Option<Session>, via: Via): Client {
    SetPc(c, r, First(s)).(sends := c.sends + [OwnSend(r, s, via)])
  }

  function Next(c: Client, step: Step): Client
    requires Enabled(c, step)
  {
    match step
    case Begin(r, expiring, dead) =>
      if c.session.None? || !expiring then SendFirst(c, r, c.session, Plain)
      else
        (match Refresh(c, dead)
         case Wait(c', f) => SetPc(c', r, AwaitFresh(f, c.session.value))
         case NoSession(c') => SendFirst(c', r, c.session, Plain))
    case Land(landing) =>
      var f := c.refreshing.value;
      (match landing
       case NewSession(s) => c.(session := Some(s), refreshing := None, flights := c.flights[f := Renewed(s)])
       case Refused => c.(session := None, refreshing := None, flights := c.flights[f := Gone])
       case NetworkDown => c.(refreshing := None, flights := c.flights[f := Gone]))
    case ResumeFresh(r) =>
      var pc := c.reqs[r];
      SendFirst(c, r, Some(SessionFrom(c.flights[pc.flight], pc.current)), Fresh(pc.flight, pc.current))
    case Reply1(r, is401, dead) =>
      if !is401 then SetPc(c, r, Done)
      else
        (match Refresh(c, dead)
         case Wait(c', f) => SetPc(c', r, AwaitRenew(f))
         case NoSession(c') => SetPc(c', r, Done))
    case ResumeRenew(r) =>
      var f := c.reqs[r].flight;
      if c.flights[f].Renewed? then
        var s := c.flights[f].session;
        SetPc(c, r, Second(f, s)).(sends := c.sends + [OwnSend(r, Some(s), Repeat(f))])
      else SetPc(c.(session := None), r, Done)
    case Reply2(r, is401) => SetPc(if is401 then c.(session := None) else c, r, Done)
    case Lose(r) => SetPc(c, r, Done)
    case SetSession(s) => c.(session := s)
  }

  function CountSends(sends: seq<OwnSend>, r: nat): nat {
    if sends == [] then 0
    else CountSends(sends[..|sends| - 1], r) + if sends[|sends| - 1].req == r then 1 else 0
  }

  lemma CountAppend(sends: seq<OwnSend>, s: OwnSend, r: nat)
    ensures CountSends(sends + [s], r) == CountSends(sends, r) + if s.req == r then 1 else 0
  {
    assert (sends + [s])[..|sends|] == sends;
  }

  /** How many sends a request has made when it stands here. */
  predicate SendsFit(c: Client, r: nat) {
    CountFits(if r in c.reqs then Some(c.reqs[r]) else None, CountSends(c.sends, r))
  }

  predicate CountFits(pc: Option<Pc>, n: nat) {
    if pc.None? then n == 0
    else match pc.value
      case AwaitFresh(_, _) => n == 0
      case First(_) => n == 1
      case AwaitRenew(_) => n == 1
      case Second(_, _) => n == 2
      case Done => n <= 2
  }

  predicate PcOk(c: Client, pc: Pc) {
    match pc
    case AwaitFresh(f, _) => f < |c.flights|
    case AwaitRenew(f) => f < |c.flights|
    case Second(f, s) => f < |c.flights| && c.flights[f] == Renewed(s)
    case _ => true
  }

  /** A repeat carries the session that the refresh it waited for brought; a first send that
      waited carries that session too, or the one it had if the refresh brought none. */
  predicate SendOk(c: Client, s: OwnSend) {
    match s.via
    case Plain => true
    case Fresh(f, current) => IsOver(c, f) && s.session == Some(SessionFrom(c.flights[f], current))
    case Repeat(f) => f < |c.flights| && s.session.Some? && c.flights[f] == Renewed(s.session.value)
  }

  ghost predicate Inv(c: Client) {
    && (forall f :: 0 <= f < |c.flights| ==> (c.flights[f].Outstanding? <==> c.refreshing == Some(f)))
    && (c.refreshing.Some? ==> c.refreshing.value < |c.flights|)
    && (forall r :: r in c.reqs ==> PcOk(c, c.reqs[r]))
    && (forall r :: SendsFit(c, r))
    && (forall i :: 0 <= i < |c.sends| ==> SendOk(c, c.sends[i]))
  }

  /** A step moves one request, and makes at most one send, of that request's path. */
  lemma SentByMover(c: Client, step: Step)
    requires Enabled(c, step)
    ensures var c' := Next(c, step);
            && (c'.sends == c.sends ||
                (|c'.sends| == |c.sends| + 1 && c'.sends == c.sends + [c'.sends[|c.sends|]]
                 && (step.Begin? || step.ResumeFresh? || step.ResumeRenew?) && c'.sends[|c.sends|].req == step.r))
  {
  }

  lemma StepKeepsCounts(c: Client, step: Step, r: nat)
    requires Enabled(c, step) && SendsFit(c, r)
    ensures SendsFit(Next(c, step), r)
  {
    var c' := Next(c, step);
    var n, n' := CountSends(c.sends, r), CountSends(c'.sends, r);
    SentByMover(c, step);
    if c'.sends != c.sends {
      CountAppend(c.sends, c'.sends[|c.sends|], r);
    }
    PcMoves(c, step, r);
  }

  /** Where a step takes a request, and whether that takes a send. */
  lemma PcMoves(c: Client, step: Step, r: nat)
    requires Enabled(c, step)
    ensures var c' := Next(c, step);
            var before := if r in c.reqs then Some(c.reqs[r]) else None;
            var after := if r in c'.reqs then Some(c'.reqs[r]) else None;
            var sent := c'.sends != c.sends && c'.sends[|c.sends|].req == r;
            forall n: nat :: CountFits(before, n) ==> CountFits(after, if sent then n + 1 else n)
  {
    SentByMover(c, step);
  }

  /** Flights are only added, and one that is over keeps its outcome. */
  lemma FlightsStay(c: Client, step: Step)
    requires Inv(c) && Enabled(c, step)
    ensures |c.flights| <= |Next(c, step).flights|
    ensures forall f: nat :: f < |c.flights| && !c.flights[f].Outstanding? ==> Next(c, step).flights[f] == c.flights[f]
  {
    hide SendsFit, SendOk, PcOk;
  }

  lemma StepKeepsWaiters(c: Client, step: Step)
    requires Inv(c) && Enabled(c, step)
    ensures forall r :: r in Next(c, step).reqs ==> PcOk(Next(c, step), Next(c, step).reqs[r])
  {
    hide SendsFit, SendOk;
    var c' := Next(c, step);
    FlightsStay(c, step);
    forall r | r in c'.reqs ensures PcOk(c', c'.reqs[r]) {
      if r in c.reqs { assert PcOk(c, c.reqs[r]); }
    }
  }

  lemma StepKeepsSends(c: Client, step: Step)
    requires Inv(c) && Enabled(c, step)
    ensures forall i :: 0 <= i < |Next(c, step).sends| ==> SendOk(Next(c, step), Next(c, step).sends[i])
  {
    hide SendsFit;
    var c' := Next(c, step);
    FlightsStay(c, step);
    SentByMover(c, step);
    forall i | 0 <= i < |c'.sends| ensures SendOk(c', c'.sends[i]) {
      if i < |c.sends| { assert c'.sends[i] == c.sends[i] && SendOk(c, c.sends[i]); }
    }
  }

  lemma StepKeepsInv(c: Client, step: Step)
    requires Inv(c) && Enabled(c, step)
    ensures Inv(Next(c, step))
  {
    StepKeepsWaiters(c, step);
    StepKeepsSends(c, step);
    forall r ensures SendsFit(Next(c, step), r) {
      StepKeepsCounts(c, step, r);
    }
  }

  ghost predicate IsRun(run: seq<Client>) {
    run != [] && run[0] == INITIAL && forall i :: 0 <= i < |run| - 1 ==> Connected(run[i], run[i + 1])
  }

  ghost predicate Connected(c: Client, c': Client) {
    exists step :: Enabled(c, step) && c' == Next(c, step)
  }

  lemma {:induction false} RunKeepsInv(run: seq<Client>, i: nat)
    requires IsRun(run) && i < |run|
    ensures Inv(run[i])
  {
    if i > 0 {
      RunKeepsInv(run, i - 1);
      assert Connected(run[i - 1], run[i - 1 + 1]);
      var step :| Enabled(run[i - 1], step) && run[i] == Next(run[i - 1], step);
      StepKeepsInv(run[i - 1], step);
    }
  }

  /** Never two refreshes at once, never more than two sends of a request's own path, and every
      send that waited for a refresh goes out with what that refresh brought. */
  lemma SingleFlight(run: seq<Client>, i: nat)
    requires IsRun(run) && i < |run|
    ensures forall f, g :: (0 <= f < |run[i].flights| && 0 <= g < |run[i].flights|
                            && run[i].flights[f].Outstanding? && run[i].flights[g].Outstanding?) ==> f == g
    ensures forall r :: CountSends(run[i].sends, r) <= 2
    ensures forall k :: 0 <= k < |run[i].sends| ==> SendOk(run[i], run[i].sends[k])
  {
    RunKeepsInv(run, i);
    forall r ensures CountSends(run[i].sends, r) <= 2 {
      assert SendsFit(run[i], r);
    }
  }

  /** A request that needs a session while a refresh is under way joins that very refresh and
      starts none of its own; what it then sends with is in `SingleFlight`. */
  lemma LateCallersJoin(c: Client, step: Step, r: nat)
    requires Inv(c) && Enabled(c, step) && c.refreshing.Some?
    requires r in Next(c, step).reqs && (r !in c.reqs || Next(c, step).reqs[r] != c.reqs[r])
    requires Next(c, step).reqs[r].AwaitFresh? || Next(c, step).reqs[r].AwaitRenew?
    ensures Next(c, step).reqs[r].flight == c.refreshing.value
    ensures Next(c, step).flights == c.flights && Next(c, step).refreshing == c.refreshing
  {
  }

  /** What a refresh brought never changes, so all who waited for it see the same outcome. */
  lemma {:induction false} OutcomeIsFinal(run: seq<Client>, i: nat, j: nat, f: nat)
    requires IsRun(run) && i <= j < |run| && IsOver(run[i], f)
    ensures IsOver(run[j], f) && run[j].flights[f] == run[i].flights[f]
  {
    hide Inv, IsOver, Connected;
    if i < j {
      OutcomeIsFinal(run, i, j - 1, f);
      RunKeepsInv(run, j - 1);
      assert Connected(run[j - 1], run[j - 1 + 1]);
      OverStays(run[j - 1], run[j], f);
    }
  }

  lemma OverStays(c: Client, c': Client, f: nat)
    requires Inv(c) && Connected(c, c') && IsOver(c, f)
    ensures IsOver(c', f) && c'.flights[f] == c.flights[f]
  {
    var step :| Enabled(c, step) && c' == Next(c, step);
  }

  // ── A refresh that fails on the network ──────────────────────────────────

  ghost predicate IsTrace(run: seq<Client>, steps: seq<Step>) {
    && |run| == |steps| + 1 && run[0] == INITIAL
    && forall k :: 0 <= k < |steps| ==> Enabled(run[k], steps[k]) && run[k + 1] == Next(run[k], steps[k])
  }

  lemma TraceIsRun(run: seq<Client>, steps: seq<Step>)
    requires IsTrace(run, steps)
    ensures IsRun(run)
  {
    hide Next, Enabled;
    forall i | 0 <= i < |run| - 1 ensures Connected(run[i], run[i + 1]) {
      assert Enabled(run[i], steps[i]) && run[i + 1] == Next(run[i], steps[i]);
    }
  }

  predicate Resumes(step: Step, c: Client, r: nat, f: nat) {
    && (step == ResumeFresh(r) || step == ResumeRenew(r))
    && Enabled(c, step) && c.reqs[r].flight == f
  }

  /**
   * A refresh that fails on the network leaves the session in the store, as its comment
   * promises, but not for every caller that waited for it: in every run, whenever such a caller
   * goes on, it leaves the store alone if and only if it had not been answered 401, or there is
   * no session any more. One that had not goes on with the session it had.
   */
  lemma NetworkFailureKeepsSession(run: seq<Client>, steps: seq<Step>, i: nat, j: nat, f: nat, r: nat)
    requires IsTrace(run, steps) && i < j < |steps|
    requires steps[i] == Land(NetworkDown) && run[i].refreshing == Some(f) && Resumes(steps[j], run[j], r, f)
    ensures run[i + 1].session == run[i].session
    ensures run[j + 1].session == run[j].session <==> steps[j].ResumeFresh? || run[j].session.None?
    ensures steps[j].ResumeRenew? ==> run[j + 1].session.None?
    ensures steps[j].ResumeFresh? ==>
              run[j + 1].sends == run[j].sends
                  + [OwnSend(r, Some(run[j].reqs[r].current), Fresh(f, run[j].reqs[r].current))]
  {
    TraceIsRun(run, steps);
    assert Enabled(run[i], steps[i]) && run[i + 1] == Next(run[i], steps[i]);
    assert Enabled(run[j], steps[j]) && run[j + 1] == Next(run[j], steps[j]);
    OutcomeIsFinal(run, i + 1, j, f);
  }

  /** And it does happen: a signed-in user's request is answered 401, the refresh meets a dead
      network, and the user is signed out. */
  lemma NetworkFailureSignsOut(s: Session)
    ensures var steps := [SetSession(Some(s)), Begin(0, false, false), Reply1(0, true, false), Land(NetworkDown),
        ResumeRenew(0)];
            exists run: seq<Client> :: IsTrace(run, steps) && run[4].session == Some(s) && run[5].session.None?
  {
    var steps := [SetSession(Some(s)), Begin(0, false, false), Reply1(0, true, false), Land(NetworkDown),
        ResumeRenew(0)];
    var sent := [OwnSend(0, Some(s), Plain)];
    var c1 := Client(Some(s), None, [], map[], []);
    var c2 := Client(Some(s), None, [], map[0 := First(Some(s))], sent);
    var c3 := Client(Some(s), Some(0), [Outstanding], map[0 := AwaitRenew(0)], sent);
    var c4 := Client(Some(s), None, [Gone], map[0 := AwaitRenew(0)], sent);
    var c5 := Client(None, None, [Gone], map[0 := Done], sent);
    var run := [INITIAL, c1, c2, c3, c4, c5];
    assert Enabled(INITIAL, steps[0]) && Next(INITIAL, steps[0]) == c1;
    assert Enabled(c1, steps[1]) && Next(c1, steps[1]) == c2;
    assert Enabled(c2, steps[2]) && Next(c2, steps[2]) == c3;
    assert Enabled(c3, steps[3]) && Next(c3, steps[3]) == c4;
    assert Enabled(c4, steps[4]) && Next(c4, steps[4]) == c5;
    hide Enabled, Next;
    assert IsTrace(run, steps);
  }

  // ── The repeat ───────────────────────────────────────────────────────────

  /** An answer 401 to the request's first send is among these steps. */
  ghost predicate Heard401(steps: seq<Step>, r: nat) {
    exists i :: 0 <= i < |steps| && steps[i].Reply1? && steps[i].r == r && steps[i].is401
  }

  lemma {:induction false} WaitsAfter401(run: seq<Client>, steps: seq<Step>, j: nat, r: nat)
    requires IsTrace(run, steps) && j < |run| && r in run[j].reqs && run[j].reqs[r].AwaitRenew?
    ensures Heard401(steps[..j], r)
  {
    if j > 0 {
      var step := steps[j - 1];
      assert Enabled(run[j - 1], step) && run[j - 1 + 1] == Next(run[j - 1], step);
      if r in run[j - 1].reqs && run[j - 1].reqs[r].AwaitRenew? {
        WaitsAfter401(run, steps, j - 1, r);
        var i :| 0 <= i < j - 1 && steps[..j - 1][i].Reply1? && steps[..j - 1][i].r == r && steps[..j - 1][i].is401;
        assert steps[..j][i] == steps[..j - 1][i];
      } else {
        assert steps[..j][j - 1] == step;
      }
    }
  }

  /** A request sends on its own path at most twice, and the second time only after the first was
      answered 401 and a refresh brought a session. */
  lemma SendsAgainOnlyAfter401(run: seq<Client>, steps: seq<Step>, j: nat, r: nat)
    requires IsTrace(run, steps) && j < |steps|
    requires CountSends(run[j + 1].sends, r) != CountSends(run[j].sends, r)
    ensures CountSends(run[j + 1].sends, r) == CountSends(run[j].sends, r) + 1 <= 2
    ensures CountSends(run[j].sends, r) == 1 ==>
              && Heard401(steps[..j], r) && steps[j] == ResumeRenew(r)
              && run[j].flights[run[j].reqs[r].flight].Renewed?
  {
    hide Heard401;
    var c, step := run[j], steps[j];
    assert Enabled(c, step) && run[j + 1] == Next(c, step);
    TraceIsRun(run, steps);
    RunKeepsInv(run, j);
    assert SendsFit(c, r);
    RunKeepsInv(run, j + 1);
    assert SendsFit(run[j + 1], r);
    SentByMover(c, step);
    CountAppend(c.sends, run[j + 1].sends[|c.sends|], r);
    if CountSends(c.sends, r) == 1 {
      assert step.r == r;
      WaitsAfter401(run, steps, j, r);
    }
  }

  // ── What is stored and what is sent, told by the steps alone ─────────────

  function Front(steps: seq<Step>): seq<Step>
    requires steps != []
  {
    steps[..|steps| - 1]
  }

  /** The stored session: what the last sign-in, sign-out or refresh made of it. A dead session, a
      401 after the repeat, and a 401 whose refresh brought nothing sign the user out. */
  function Stored(steps: seq<Step>): Option<Session> {
    if steps == [] then None
    else
      var before := Stored(Front(steps));
      match steps[|steps| - 1]
      case SetSession(s) => s
      case Land(NewSession(s)) => Some(s)
      case Land(Refused) => None
      case Land(NetworkDown) => before
      case Begin(_, expiring, dead) => if expiring && dead && !Flying(Front(steps)) then None else before
      case Reply1(_, is401, dead) => if is401 && dead && !Flying(Front(steps)) then None else before
      case Reply2(_, is401) => if is401 then None else before
      case ResumeRenew(r) => if Brought(Front(steps), r).None? then None else before
      case _ => before
  }

  /** A refresh is under way: a session that lives was to be renewed, and no refresh has landed since. */
  predicate Flying(steps: seq<Step>) {
    steps != [] &&
    match steps[|steps| - 1]
    case Land(_) => false
    case Begin(_, expiring, dead) => Flying(Front(steps)) || (expiring && !dead && Stored(Front(steps)).Some?)
    case Reply1(_, is401, dead) => Flying(Front(steps)) || (is401 && !dead && Stored(Front(steps)).Some?)
    case _ => Flying(Front(steps))
  }

  /** No refresh has landed since the request began with an expiring token, or was answered 401. */
  predicate Awaits(steps: seq<Step>, r: nat) {
    steps != [] &&
    match steps[|steps| - 1]
    case Begin(q, expiring, _) => (q == r && expiring) || Awaits(Front(steps), r)
    case Reply1(q, is401, _) => (q == r && is401) || Awaits(Front(steps), r)
    case Land(_) => false
    case _ => Awaits(Front(steps), r)
  }

  /** What the refresh that the request waited for brought: the first landing after that. */
  function Brought(steps: seq<Step>, r: nat): Option<Session> {
    if steps == [] then None
    else
      match steps[|steps| - 1]
      case Land(landing) =>
        if !Awaits(Front(steps), r) then Brought(Front(steps), r)
        else if landing.NewSession? then Some(landing.session) else None
      case _ => Brought(Front(steps), r)
  }

  /** The session stored when the request began. */
  function HeldAtBegin(steps: seq<Step>, r: nat): Option<Session> {
    if steps == [] then None
    else if steps[|steps| - 1].Begin? && steps[|steps| - 1].r == r then Stored(Front(steps))
    else HeldAtBegin(Front(steps), r)
  }

  /** Own sends so far, each with the request and the session it carries. A begin sends at once
      unless its session is expiring and a refresh is to be waited for. */
  function SentSoFar(steps: seq<Step>): seq<(nat, Option<Session>)> {
    if steps == [] then []
    else
      var front := Front(steps);
      SentSoFar(front) +
      match steps[|steps| - 1]
      case Begin(r, expiring, dead) =>
        var held := Stored(front);
        if held.Some? && expiring && (Flying(front) || !dead) then [] else [(r, held)]
      case ResumeFresh(r) =>
        var brought := Brought(front, r);
        [(r, if brought.Some? then brought else HeldAtBegin(front, r))]
      case ResumeRenew(r) =>
        var brought := Brought(front, r);
        if brought.Some? then [(r, brought)] else []
      case _ => []
  }

  /** A waiting request: its flight is the one under way, or has brought what the steps tell. */
  predicate WaitTold(c: Client, steps: seq<Step>, r: nat, f: nat) {
    if Awaits(steps, r) then c.refreshing == Some(f)
    else
      f < |c.flights|
      && c.flights[f] == (if Brought(steps, r).Some? then Renewed(Brought(steps, r).value) else Gone)
  }

  predicate PcTold(c: Client, steps: seq<Step>, r: nat, pc: Pc) {
    match pc
    case AwaitFresh(f, current) => HeldAtBegin(steps, r) == Some(current) && WaitTold(c, steps, r, f)
    case AwaitRenew(f) => WaitTold(c, steps, r, f)
    case _ => true
  }

  function Carried(sends: seq<OwnSend>): seq<(nat, Option<Session>)> {
    seq(|sends|, k requires 0 <= k < |sends| => (sends[k].req, sends[k].session))
  }

  ghost predicate Told(c: Client, steps: seq<Step>) {
    && c.session == Stored(steps)
    && (c.refreshing.Some? <==> Flying(steps))
    && (forall r :: r in c.reqs ==> PcTold(c, steps, r, c.reqs[r]))
    && Carried(c.sends) == SentSoFar(steps)
  }

  lemma CarriedAppend(sends: seq<OwnSend>, s: OwnSend)
    ensures Carried(sends + [s]) == Carried(sends) + [(s.req, s.session)]
  {
  }

  lemma StepTellsStore(c: Client, step: Step, before: seq<Step>)
    requires Inv(c) && Told(c, before) && Enabled(c, step)
    ensures var steps := before + [step];
            Next(c, step).session == Stored(steps) && (Next(c, step).refreshing.Some? <==> Flying(steps))
  {
    assert Front(before + [step]) == before;
    if step.ResumeRenew? { assert PcTold(c, before, step.r, c.reqs[step.r]); }
  }

  /** A landing ends the wait of everybody who waits. */
  lemma LandTells(c: Client, landing: Landing, before: seq<Step>, r: nat)
    requires Inv(c) && Told(c, before) && Enabled(c, Land(landing)) && r in c.reqs
    ensures PcTold(Next(c, Land(landing)), before + [Land(landing)], r, c.reqs[r])
  {
    hide SendsFit, SendOk, Stored, Flying, SentSoFar;
    assert Front(before + [Land(landing)]) == before;
    assert PcTold(c, before, r, c.reqs[r]) && PcOk(c, c.reqs[r]);
  }

  /** What a step leaves alone of a request that it does not move, and of the flights. */
  lemma OthersStay(c: Client, step: Step, r: nat)
    requires Enabled(c, step) && !step.Land? && r in c.reqs && (step.SetSession? || step.r != r)
    ensures r in Next(c, step).reqs && Next(c, step).reqs[r] == c.reqs[r]
    ensures c.refreshing.Some? ==> Next(c, step).refreshing == c.refreshing
  {
  }

  lemma OthersUntold(step: Step, before: seq<Step>, r: nat)
    requires !step.Land? && (step.SetSession? || step.r != r)
    ensures Awaits(before + [step], r) == Awaits(before, r) && Brought(before + [step], r) == Brought(before, r)
    ensures HeldAtBegin(before + [step], r) == HeldAtBegin(before, r)
  {
    assert Front(before + [step]) == before;
  }

  /** A request that the step does not move waits as before. */
  lemma OthersTold(c: Client, step: Step, before: seq<Step>, r: nat)
    requires Inv(c) && Told(c, before) && Enabled(c, step) && !step.Land? && r in c.reqs
    requires step.SetSession? || step.r != r
    ensures r in Next(c, step).reqs && PcTold(Next(c, step), before + [step], r, Next(c, step).reqs[r])
  {
    hide SendsFit, SendOk, Stored, Flying, SentSoFar, Next, Enabled, Awaits, Brought, HeldAtBegin;
    OthersStay(c, step, r);
    OthersUntold(step, before, r);
    FlightsStay(c, step);
    assert PcTold(c, before, r, c.reqs[r]) && PcOk(c, c.reqs[r]);
  }

  lemma BeginTold(c: Client, step: Step, before: seq<Step>)
    requires Told(c, before) && Enabled(c, step) && step.Begin?
    ensures step.r in Next(c, step).reqs && PcTold(Next(c, step), before + [step], step.r, Next(c, step).reqs[step.r])
  {
    hide Stored, Flying, SentSoFar, Brought;
    assert Front(before + [step]) == before;
  }

  lemma ReplyTold(c: Client, step: Step, before: seq<Step>)
    requires Enabled(c, step) && step.Reply1?
    ensures step.r in Next(c, step).reqs && PcTold(Next(c, step), before + [step], step.r, Next(c, step).reqs[step.r])
  {
    hide Stored, Flying, SentSoFar, Brought, HeldAtBegin;
    assert Front(before + [step]) == before;
  }

  lemma NoMoreWaiting(c: Client, step: Step)
    requires Enabled(c, step) && (step.ResumeFresh? || step.ResumeRenew? || step.Reply2? || step.Lose?)
    ensures step.r in Next(c, step).reqs
    ensures !Next(c, step).reqs[step.r].AwaitFresh? && !Next(c, step).reqs[step.r].AwaitRenew?
  {
  }

  /** One that it moves waits from then on, or no more. */
  lemma MoverTold(c: Client, step: Step, before: seq<Step>)
    requires Told(c, before) && Enabled(c, step) && !step.Land? && !step.SetSession?
    ensures step.r in Next(c, step).reqs && PcTold(Next(c, step), before + [step], step.r, Next(c, step).reqs[step.r])
  {
    hide Told, Enabled, Next, WaitTold, HeldAtBegin;
    match step {
      case Begin(_, _, _) => BeginTold(c, step, before);
      case Reply1(_, _, _) => ReplyTold(c, step, before);
      case _ => NoMoreWaiting(c, step);
    }
  }

  lemma StepTellsWaiters(c: Client, step: Step, before: seq<Step>, r: nat)
    requires Inv(c) && Told(c, before) && Enabled(c, step) && r in Next(c, step).reqs
    ensures PcTold(Next(c, step), before + [step], r, Next(c, step).reqs[r])
  {
    hide Inv, Told, PcTold;
    if step.Land? {
      LandTells(c, step.landing, before, r);
    } else if step.SetSession? || step.r != r {
      OthersTold(c, step, before, r);
    } else {
      MoverTold(c, step, before);
    }
  }

  lemma StepTellsSends(c: Client, step: Step, before: seq<Step>)
    requires Inv(c) && Told(c, before) && Enabled(c, step)
    ensures Carried(Next(c, step).sends) == SentSoFar(before + [step])
  {
    var c' := Next(c, step);
    assert Front(before + [step]) == before;
    SentByMover(c, step);
    if c'.sends != c.sends { CarriedAppend(c.sends, c'.sends[|c.sends|]); }
    if step.ResumeFresh? || step.ResumeRenew? { assert PcTold(c, before, step.r, c.reqs[step.r]); }
  }

  /**
   * Over every run, what the console has stored, whether a refresh is under way, and which session
   * each of its requests has carried are told by the steps alone: a refresh that brings a session
   * stores it, a request with a session that is not expiring carries the one stored when it began,
   * and one with an expiring session waits, and then carries what the refresh brought.
   */
  lemma {:induction false} StepsTellSessions(run: seq<Client>, steps: seq<Step>, j: nat)
    requires IsTrace(run, steps) && j <= |steps|
    ensures run[j].session == Stored(steps[..j])
    ensures run[j].refreshing.Some? <==> Flying(steps[..j])
    ensures Carried(run[j].sends) == SentSoFar(steps[..j])
  {
    TraceIsTold(run, steps, j);
  }

  lemma {:induction false} TraceIsTold(run: seq<Client>, steps: seq<Step>, j: nat)
    requires IsTrace(run, steps) && j <= |steps|
    ensures Told(run[j], steps[..j])
  {
    hide Enabled, Next, PcTold, Inv;
    if j > 0 {
      TraceIsTold(run, steps, j - 1);
      TraceIsRun(run, steps);
      RunKeepsInv(run, j - 1);
      var c, step, before := run[j - 1], steps[j - 1], steps[..j - 1];
      assert steps[..j] == before + [step];
      assert Enabled(c, step) && run[j - 1 + 1] == Next(c, step);
      StepTellsStore(c, step, before);
      StepTellsSends(c, step, before);
      forall r | r in run[j].reqs ensures PcTold(run[j], steps[..j], r, run[j].reqs[r]) {
        StepTellsWaiters(c, step, before, r);
      }
    }
  }
}
