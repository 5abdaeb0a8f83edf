/** NIP-42 authentication and bounded retries on one relay socket. */
module RelayAuth {
  import opened Prelude

  // Durations in milliseconds.
  const AUTH_TIMEOUT: nat := 15_000
  const EVENT_TTL: nat := 60_000
  const MAX_PENDING: nat := 16
  const MAX_AUTH_ATTEMPTS: nat := 3
  const MAX_CHALLENGE_BYTES: nat := 4096
  const AUTH_REQUIRED: string := "auth-required:"

  /** The 256-bit hash naming an event. */
  type EventId = int

  /** A queued publication. `serial` is its place in the order of publication. */
  datatype Entry = Entry(serial: nat, event: EventId, sentAt: nat, waitingAuth: bool, retried: bool)

  datatype Incoming =
    | Challenge(challenge: string)
    | Ack(id: EventId, status: bool, message: string)
    | Closed(subscription: int, message: string)
    | Unrelated

  datatype Outgoing =
    | Subscribe
    | Publication(serial: nat, event: EventId)
    | Auth(id: EventId, challenge: string)

  datatype Signing = Signed(id: EventId) | Locked | Failed

  datatype AuthError =
    | TooLarge | Rejected(message: string) | TimedOut | TooMany | Authenticating | MustUnlock | CannotSign
    | WaitingForChallenge

  datatype AccessError = ResponseRejected(message: string) | SubscriptionClosed(message: string)

  /** The fields of a session. */
  datatype Session = Session(
    subscription: int,
    challenge: Option<string>, attempted: bool, attempts: nat, pendingAuth: Option<(EventId, nat)>,
    authenticated: bool, retrySubscription: bool, subscriptionRetried: bool,
    events: seq<Entry>, authError: Option<AuthError>, accessError: Option<AccessError>, published: nat)

  predicate AuthRequired(message: string) { AUTH_REQUIRED <= message }

  predicate Waiting(e: Entry) { e.waitingAuth && !e.retried }

  function Resent(e: Entry): Entry {
    if Waiting(e) then e.(waitingAuth := false, retried := true) else e
  }

  function ResentAll(events: seq<Entry>): (r: seq<Entry>)
    ensures |r| == |events|
  {
    if events == [] then [] else ResentAll(events[..|events| - 1]) + [Resent(events[|events| - 1])]
  }

  function Publications(events: seq<Entry>): seq<Outgoing> {
    if events == [] then []
    else
      var last := events[|events| - 1];
      Publications(events[..|events| - 1]) + (if Waiting(last) then [Publication(last.serial, last.event)] else [])
  }

  function Live(events: seq<Entry>, now: nat): seq<Entry> {
    if events == [] then []
    else
      var last := events[|events| - 1];
      Live(events[..|events| - 1], now) + (if now < last.sentAt + EVENT_TTL then [last] else [])
  }

  predicate AllLive(events: seq<Entry>, now: nat) {
    forall i :: 0 <= i < |events| ==> now < events[i].sentAt + EVENT_TTL
  }

  function Position(events: seq<Entry>, id: EventId): (index: nat)
    ensures index <= |events|
    ensures index < |events| ==> events[index].event == id
    ensures forall i :: 0 <= i < index ==> events[i].event != id
  {
    if events == [] then 0
    else if events[0].event == id then 0
    else 1 + Position(events[1..], id)
  }

  function Without(events: seq<Entry>, index: nat): seq<Entry>
    requires index < |events|
  {
    events[..index] + events[index + 1..]
  }

  // ----- One effect per branch -----

  datatype Step =
    | Publish(event: EventId)
    | Expire
    | ChallengeTooLong
    | ChallengeRepeated
    | ChallengeChanged(challenge: string)
    | AuthAccepted(answer: Incoming)
    | AuthRejected(answer: Incoming)
    | EventBlocked(index: nat, answer: Incoming)
    | EventSettled(index: nat, answer: Incoming)
    | EventRejected(index: nat, answer: Incoming)
    | SubscriptionBlocked(answer: Incoming)
    | SubscriptionRejected(answer: Incoming)
    | Nothing
    | AwaitAuth                 // `waiting_for_auth`
    | Resend                    // what `retry` sends and marks
    | AuthTimedOut
    | Exhausted
    | SignedChallenge(id: EventId)
    | CouldNotSign(locked: bool)

  /** The branch that an incoming message takes. */
  function Classify(s: Session, message: Incoming): Step {
    match message
    case Challenge(challenge) =>
      if |challenge| > MAX_CHALLENGE_BYTES then ChallengeTooLong
      else if s.challenge == Some(challenge) then ChallengeRepeated
      else ChallengeChanged(challenge)
    case Ack(id, status, text) =>
      if s.pendingAuth.Some? && s.pendingAuth.value.0 == id then
        if status then AuthAccepted(message) else AuthRejected(message)
      else
        var index := Position(s.events, id);
        if index == |s.events| then Nothing
        else if !status && AuthRequired(text) && !s.events[index].retried then EventBlocked(index, message)
        else if status then EventSettled(index, message)
        else EventRejected(index, message)
    case Closed(subscription, text) =>
      if subscription != s.subscription then Nothing
      else if AuthRequired(text) && !s.subscriptionRetried then SubscriptionBlocked(message)
      else SubscriptionRejected(message)
    case Unrelated => Nothing
  }

  predicate CanSign(s: Session) { !s.attempted && !s.authenticated && s.challenge.Some? }

  predicate AnswersPending(s: Session, answer: Incoming) {
    s.pendingAuth.Some? && answer.Ack? && answer.id == s.pendingAuth.value.0
  }

  predicate AnswersEvent(s: Session, index: nat, answer: Incoming) {
    index < |s.events| && answer.Ack? && answer.id == s.events[index].event
  }

  predicate EndsSubscription(s: Session, answer: Incoming) {
    answer.Closed? && answer.subscription == s.subscription
  }

  predicate Enabled(s: Session, step: Step, now: nat) {
    match step
    case AuthAccepted(answer) => AnswersPending(s, answer) && answer.status
    case AuthRejected(answer) => AnswersPending(s, answer) && !answer.status
    case EventBlocked(index, answer) =>
      AnswersEvent(s, index, answer) && !answer.status && AuthRequired(answer.message) && !s.events[index].retried
    case EventSettled(index, answer) => AnswersEvent(s, index, answer) && answer.status
    case EventRejected(index, answer) => AnswersEvent(s, index, answer) && !answer.status
    case SubscriptionBlocked(answer) =>
      EndsSubscription(s, answer) && AuthRequired(answer.message) && !s.subscriptionRetried
    case SubscriptionRejected(answer) => EndsSubscription(s, answer)
    case ChallengeChanged(challenge) => |challenge| <= MAX_CHALLENGE_BYTES && s.challenge != Some(challenge)
    case AwaitAuth => !s.authenticated
    case Resend => s.authenticated && AllLive(s.events, now)
    case AuthTimedOut => s.pendingAuth.Some? && s.pendingAuth.value.1 + AUTH_TIMEOUT <= now
    case Exhausted => CanSign(s) && s.attempts >= MAX_AUTH_ATTEMPTS
    case SignedChallenge(_) => CanSign(s) && s.attempts < MAX_AUTH_ATTEMPTS
    case CouldNotSign(_) => CanSign(s) && s.attempts < MAX_AUTH_ATTEMPTS
    case _ => true
  }

  function WaitingForAuth(error: Option<AuthError>): Option<AuthError> {
    if error == None then Some(WaitingForChallenge) else error
  }

  function Next(s: Session, step: Step, now: nat): Session
    requires Enabled(s, step, now)
  {
    match step
    case Publish(event) =>
      s.(events := (if |s.events| == MAX_PENDING then s.events[1..] else s.events)
                   + [Entry(s.published, event, now, false, false)],
         published := s.published + 1)
    case Expire => s.(events := Live(s.events, now))
    case ChallengeTooLong => s.(authError := Some(TooLarge))
    case ChallengeRepeated => s
    case ChallengeChanged(challenge) =>
      s.(challenge := Some(challenge), attempted := false, pendingAuth := None, authenticated := false)
    case AuthAccepted(_) => s.(pendingAuth := None, authenticated := true, authError := None)
    case AuthRejected(answer) => s.(pendingAuth := None, authError := Some(Rejected(answer.message)))
    case EventBlocked(index, _) => s.(events := s.events[index := s.events[index].(waitingAuth := true)])
    case EventSettled(index, _) => s.(events := Without(s.events, index))
    case EventRejected(index, answer) =>
      s.(events := Without(s.events, index), accessError := Some(ResponseRejected(answer.message)))
    case SubscriptionBlocked(_) => s.(retrySubscription := true)
    case SubscriptionRejected(answer) => s.(accessError := Some(SubscriptionClosed(answer.message)))
    case Nothing => s
    case AwaitAuth => s.(authError := WaitingForAuth(s.authError))
    case Resend =>
      s.(retrySubscription := false, subscriptionRetried := s.subscriptionRetried || s.retrySubscription,
         events := ResentAll(s.events))
    case AuthTimedOut => s.(pendingAuth := None, authError := Some(TimedOut))
    case Exhausted => s.(attempted := true, authError := Some(TooMany))
    case SignedChallenge(id) =>
      s.(attempts := s.attempts + 1, attempted := true,
         pendingAuth := Some((id, now)), authError := Some(Authenticating))
    case CouldNotSign(locked) => s.(attempted := !locked, authError := Some(if locked then MustUnlock else CannotSign))
  }

  function Output(s: Session, step: Step): seq<Outgoing> {
    match step
    case Publish(event) => [Publication(s.published, event)]
    case Resend => (if s.retrySubscription then [Subscribe] else []) + Publications(s.events)
    case SignedChallenge(id) => if s.challenge.Some? then [Auth(id, s.challenge.value)] else []
    case _ => []
  }

  // ----- Facts about the queue operations -----

  predicate Sorted(events: seq<Entry>) {
    forall i, j :: 0 <= i < j < |events| ==>
      events[i].serial < events[j].serial && events[i].sentAt <= events[j].sentAt
  }

  lemma {:induction false} LiveMembers(events: seq<Entry>, now: nat)
    ensures |Live(events, now)| <= |events|
    ensures forall e :: e in Live(events, now) <==> e in events && now < e.sentAt + EVENT_TTL
  {
    if events != [] {
      LiveMembers(events[..|events| - 1], now);
      assert events == events[..|events| - 1] + [events[|events| - 1]];
    }
  }

  lemma {:induction false} LiveSorted(events: seq<Entry>, now: nat)
    requires Sorted(events)
    ensures Sorted(Live(events, now))
  {
    if events != [] {
      var rest := events[..|events| - 1];
      LiveSorted(rest, now);
      LiveMembers(rest, now);
      var kept := Live(rest, now);
      assert forall i :: 0 <= i < |kept| ==> kept[i] in rest;
    }
  }

  /** Expiry keeps exactly the entries younger than the limit, in order. */
  lemma LiveKeeps(events: seq<Entry>, now: nat)
    requires Sorted(events)
    ensures Sorted(Live(events, now)) && AllLive(Live(events, now), now)
    ensures |Live(events, now)| <= |events|
    ensures forall e :: e in Live(events, now) <==> e in events && now < e.sentAt + EVENT_TTL
  {
    LiveSorted(events, now);
    LiveMembers(events, now);
    var kept := Live(events, now);
    assert forall i :: 0 <= i < |kept| ==> kept[i] in kept;
  }

  lemma {:induction false} ResentAt(events: seq<Entry>, i: nat)
    requires i < |events|
    ensures ResentAll(events)[i] == Resent(events[i])
  {
    if i < |events| - 1 {
      ResentAt(events[..|events| - 1], i);
    }
  }

  /** A retry publishes each waiting entry once and nothing else. */
  lemma {:induction false} PublicationCount(events: seq<Entry>, serial: nat, event: EventId)
    requires Sorted(events)
    ensures multiset(Publications(events))[Publication(serial, event)] <= 1
    ensures Publication(serial, event) in Publications(events) ==>
      exists e :: e in events && e.serial == serial && e.event == event && Waiting(e)
    ensures Subscribe !in Publications(events)
  {
    if events != [] {
      var rest, last := events[..|events| - 1], events[|events| - 1];
      PublicationCount(rest, serial, event);
      assert events == rest + [last];
    }
  }

  /** And each waiting entry is published: nothing that waits is left out. */
  lemma {:induction false} WaitingIsPublished(events: seq<Entry>, i: nat)
    requires i < |events| && events[i].waitingAuth && !events[i].retried
    ensures Publication(events[i].serial, events[i].event) in Publications(events)
    ensures ResentAll(events)[i] == events[i].(waitingAuth := false, retried := true)
  {
    ResentAt(events, i);
    if i < |events| - 1 {
      WaitingIsPublished(events[..|events| - 1], i);
    }
  }

  /** An entry that does not wait is left as it is. */
  lemma OthersStay(events: seq<Entry>, i: nat)
    requires i < |events| && !(events[i].waitingAuth && !events[i].retried)
    ensures ResentAll(events)[i] == events[i]
  {
    ResentAt(events, i);
  }

  // ----- Invariants of one session -----

  /** At most 16 entries, in the order they were sent, none retried and still waiting. */
  ghost predicate QueueOk(events: seq<Entry>, published: nat, now: nat) {
    && |events| <= MAX_PENDING
    && Sorted(events)
    && forall i :: 0 <= i < |events| ==>
      events[i].serial < published && events[i].sentAt <= now && (events[i].waitingAuth ==> !events[i].retried)
  }

  ghost predicate Queue(s: Session, now: nat) { QueueOk(s.events, s.published, now) }

  predicate Flags(s: Session) {
    && s.attempts <= MAX_AUTH_ATTEMPTS
    && (s.pendingAuth.Some? ==> s.attempted && !s.authenticated)
    && (s.authenticated ==> s.attempted)
    && (s.retrySubscription ==> !s.subscriptionRetried)
  }

  lemma NextKeepsFlags(s: Session, step: Step, now: nat)
    requires Enabled(s, step, now) && Flags(s)
    ensures Flags(Next(s, step, now))
    ensures s.published <= Next(s, step, now).published
  {
  }

  lemma ExpireKeepsQueue(events: seq<Entry>, published: nat, now: nat)
    requires QueueOk(events, published, now)
    ensures QueueOk(Live(events, now), published, now)
  {
    LiveKeeps(events, now);
    var kept := Live(events, now);
    assert forall i :: 0 <= i < |kept| ==> kept[i] in events;
  }

  lemma ResendKeepsQueue(events: seq<Entry>, published: nat, now: nat)
    requires QueueOk(events, published, now)
    ensures QueueOk(ResentAll(events), published, now)
    ensures forall i :: 0 <= i < |events| ==> ResentAll(events)[i] == Resent(events[i])
    ensures forall i :: 0 <= i < |events| ==> !ResentAll(events)[i].waitingAuth
  {
    forall i: nat | i < |events| ensures ResentAll(events)[i] == Resent(events[i]) {
      ResentAt(events, i);
    }
  }

  lemma WithoutKeepsQueue(events: seq<Entry>, published: nat, now: nat, index: nat)
    requires QueueOk(events, published, now) && index < |events|
    ensures QueueOk(Without(events, index), published, now)
  {
  }

  lemma NextKeepsQueue(s: Session, step: Step, now: nat)
    requires Enabled(s, step, now) && Queue(s, now)
    ensures Queue(Next(s, step, now), now)
  {
    match step
    case Expire => ExpireKeepsQueue(s.events, s.published, now);
    case Resend => ResendKeepsQueue(s.events, s.published, now);
    case EventSettled(index, _) => WithoutKeepsQueue(s.events, s.published, now, index);
    case EventRejected(index, _) => WithoutKeepsQueue(s.events, s.published, now, index);
    case _ =>
  }

  // ----- Runs -----

  ghost predicate Leads(s: Session, step: Step, now: nat, v: Session) {
    Enabled(s, step, now) && v == Next(s, step, now)
  }

  predicate Fresh(s: Session) {
    s == Session(s.subscription, None, false, 0, None, false, false, false, [], None, None, 0)
  }

  /** Any sequence of branches on a fresh session under a monotone clock. */
  ghost predicate Run(run: seq<Session>, steps: seq<Step>, at: seq<nat>) {
    && |run| == |steps| + 1 && |at| == |steps|
    && Fresh(run[0])
    && (forall i {:trigger steps[i]} :: 0 <= i < |steps| ==> Leads(run[i], steps[i], at[i], run[i + 1]))
    && (forall i, j :: 0 <= i < j < |steps| ==> at[i] <= at[j])
  }

  lemma {:induction false} RunKeeps(run: seq<Session>, steps: seq<Step>, at: seq<nat>, n: nat, now: nat)
    requires Run(run, steps, at) && n <= |steps|
    requires forall i :: 0 <= i < n ==> at[i] <= now
    ensures Flags(run[n]) && Queue(run[n], now)
  {
    if n > 0 {
      RunKeeps(run, steps, at, n - 1, at[n - 1]);
      assert Leads(run[n - 1], steps[n - 1], at[n - 1], run[n]);
      NextKeepsFlags(run[n - 1], steps[n - 1], at[n - 1]);
      NextKeepsQueue(run[n - 1], steps[n - 1], at[n - 1]);
    }
  }

  // ----- Authentication -----

  /** No new challenge was installed by the steps from `j` on, up to `n`. */
  ghost predicate NoNewChallenge(steps: seq<Step>, j: nat, n: nat) {
    n <= |steps| && forall i :: j <= i < n ==> !steps[i].ChallengeChanged?
  }

  ghost predicate SignedAt(steps: seq<Step>, j: nat, id: EventId) {
    j < |steps| && steps[j] == SignedChallenge(id)
  }

  lemma {:induction false} ChallengeStays(run: seq<Session>, steps: seq<Step>, at: seq<nat>, j: nat, n: nat)
    requires Run(run, steps, at) && j <= n <= |steps| && NoNewChallenge(steps, j, n)
    ensures run[n].challenge == run[j].challenge
    ensures run[j].attempted && !(exists i :: j <= i < n && steps[i] == CouldNotSign(true)) ==> run[n].attempted
    ensures run[j].attempted ==> run[n].attempted
  {
    if j < n {
      ChallengeStays(run, steps, at, j, n - 1);
      assert Leads(run[n - 1], steps[n - 1], at[n - 1], run[n]);
    }
  }

  /** Between two signatures a different challenge was installed. */
  lemma OneAuthPerChallenge(run: seq<Session>, steps: seq<Step>, at: seq<nat>, j: nat, k: nat, id: EventId,
      other: EventId)
    requires Run(run, steps, at) && j < k < |steps|
    requires SignedAt(steps, j, id) && SignedAt(steps, k, other)
    ensures exists i :: j < i < k && steps[i].ChallengeChanged?
  {
    assert Leads(run[j], steps[j], at[j], run[j + 1]) && Leads(run[k], steps[k], at[k], run[k + 1]);
    if NoNewChallenge(steps, j + 1, k) {
      ChallengeStays(run, steps, at, j + 1, k);
      assert false;
    }
  }

  function CountSigned(steps: seq<Step>): nat {
    if steps == [] then 0
    else CountSigned(steps[..|steps| - 1]) + (if steps[|steps| - 1].SignedChallenge? then 1 else 0)
  }

  lemma {:induction false} SignaturesCounted(run: seq<Session>, steps: seq<Step>, at: seq<nat>, n: nat)
    requires Run(run, steps, at) && n <= |steps|
    ensures CountSigned(steps[..n]) == run[n].attempts
  {
    if n > 0 {
      SignaturesCounted(run, steps, at, n - 1);
      assert Leads(run[n - 1], steps[n - 1], at[n - 1], run[n]);
      assert steps[..n][..n - 1] == steps[..n - 1];
    }
  }

  /** At most three AUTH messages are signed on one socket. */
  lemma AtMostThreeAuths(run: seq<Session>, steps: seq<Step>, at: seq<nat>)
    requires Run(run, steps, at)
    ensures CountSigned(steps) <= MAX_AUTH_ATTEMPTS
  {
    var n := |steps|;
    SignaturesCounted(run, steps, at, n);
    RunKeeps(run, steps, at, n, if n == 0 then 0 else at[n - 1]);
    assert steps[..n] == steps;
  }

  /** The pending attempt was signed for the challenge installed now. */
  lemma {:induction false} PendingIsCurrent(run: seq<Session>, steps: seq<Step>, at: seq<nat>, n: nat) returns (j: nat)
    requires Run(run, steps, at) && n <= |steps| && run[n].pendingAuth.Some?
    ensures j < n && SignedAt(steps, j, run[n].pendingAuth.value.0) && NoNewChallenge(steps, j, n)
    ensures run[j].challenge == run[n].challenge
  {
    assert n > 0;
    assert Leads(run[n - 1], steps[n - 1], at[n - 1], run[n]);
    if steps[n - 1].SignedChallenge? {
      j := n - 1;
    } else {
      j := PendingIsCurrent(run, steps, at, n - 1);
    }
    ChallengeStays(run, steps, at, j, n);
  }

  /** A session is authenticated only after the relay answered, with status true, the AUTH
      event signed for the very challenge that is installed, none having replaced it since. */
  lemma {:induction false} AuthenticatedForCurrentChallenge(
    run: seq<Session>, steps: seq<Step>, at: seq<nat>, n: nat) returns (j: nat, k: nat, id: EventId)
    requires Run(run, steps, at) && n <= |steps| && run[n].authenticated
    ensures j < k < n && SignedAt(steps, j, id) && NoNewChallenge(steps, j, n)
    ensures steps[k].AuthAccepted? && steps[k].answer == Ack(id, true, steps[k].answer.message)
    ensures run[j].challenge == run[n].challenge && run[n].challenge.Some?
    ensures Output(run[j], steps[j]) == [Auth(id, run[n].challenge.value)]
  {
    assert n > 0;
    assert Leads(run[n - 1], steps[n - 1], at[n - 1], run[n]);
    if steps[n - 1].AuthAccepted? {
      k, id := n - 1, steps[n - 1].answer.id;
      j := PendingIsCurrent(run, steps, at, n - 1);
      assert Leads(run[j], steps[j], at[j], run[j + 1]);
    } else {
      j, k, id := AuthenticatedForCurrentChallenge(run, steps, at, n - 1);
    }
    ChallengeStays(run, steps, at, j, n);
  }

  /** A branch after which no attempt is pending. */
  predicate EndsAttempt(step: Step) {
    step.ChallengeChanged? || step.AuthTimedOut? || step.AuthAccepted? || step.AuthRejected?
  }

  /** From such a branch on, the id of an attempt is not pending until it is signed again. */
  lemma {:induction false} NotPending(run: seq<Session>, steps: seq<Step>, at: seq<nat>, i: nat, n: nat, id: EventId)
    requires Run(run, steps, at) && i < n <= |steps| && EndsAttempt(steps[i])
    requires forall m :: i < m < n ==> !SignedAt(steps, m, id)
    ensures run[n].pendingAuth.Some? ==> run[n].pendingAuth.value.0 != id
  {
    assert Leads(run[n - 1], steps[n - 1], at[n - 1], run[n]);
    if i < n - 1 {
      NotPending(run, steps, at, i, n - 1, id);
      assert !SignedAt(steps, n - 1, id);
    }
  }

  /** Once the challenge changed or the attempt timed out, however much happens since,
      the relay's answer to that attempt takes no branch: it neither authenticates, nor
      reports an error, nor sends anything. */
  lemma StaleAckIgnored(run: seq<Session>, steps: seq<Step>, at: seq<nat>, i: nat, n: nat,
                        id: EventId, status: bool, message: string, now: nat)
    requires Run(run, steps, at) && i < n <= |steps| && EndsAttempt(steps[i])
    requires forall m :: i < m < n ==> !SignedAt(steps, m, id)
    requires forall m :: 0 <= m < |run[n].events| ==> run[n].events[m].event != id
    ensures Classify(run[n], Ack(id, status, message)) == Nothing
    ensures Next(run[n], Nothing, now) == run[n] && Output(run[n], Nothing) == []
  {
    NotPending(run, steps, at, i, n, id);
  }

  // ----- Bounded retries -----

  ghost function Sent(run: seq<Session>, steps: seq<Step>, n: nat): multiset<Outgoing>
    requires n <= |steps| && |run| == |steps| + 1
  {
    if n == 0 then multiset{} else Sent(run, steps, n - 1) + multiset(Output(run[n - 1], steps[n - 1]))
  }

  /** Sent at most twice; at most once while its entry has not been retried. */
  predicate SerialOk(events: seq<Entry>, published: nat, sent: multiset<Outgoing>, serial: nat, event: EventId) {
    var p := Publication(serial, event);
    && sent[p] <= 2
    && (serial >= published ==> sent[p] == 0)
    && (forall i :: 0 <= i < |events| && events[i].serial == serial && !events[i].retried ==> sent[p] <= 1)
  }

  predicate SubscriptionOk(s: Session, sent: multiset<Outgoing>) {
    sent[Subscribe] <= (if s.subscriptionRetried then 1 else 0)
  }

  lemma ResendSends(events: seq<Entry>, published: nat, now: nat, sent: multiset<Outgoing>, first: seq<Outgoing>,
                    serial: nat, event: EventId)
    requires QueueOk(events, published, now) && SerialOk(events, published, sent, serial, event)
    requires first == [] || first == [Subscribe]
    ensures SerialOk(ResentAll(events), published, sent + multiset(first + Publications(events)), serial, event)
    ensures multiset(first + Publications(events))[Subscribe] == |first|
  {
    PublicationCount(events, serial, event);
    ResendKeepsQueue(events, published, now);
    assert multiset(first + Publications(events)) == multiset(first) + multiset(Publications(events));
    var p := Publication(serial, event);
    if p in Publications(events) {
      var e :| e in events && e.serial == serial && e.event == event && Waiting(e);
      var i :| 0 <= i < |events| && events[i] == e;
      assert !events[i].retried;
    }
  }

  lemma NextSends(s: Session, step: Step, now: nat, sent: multiset<Outgoing>, serial: nat, event: EventId)
    requires Enabled(s, step, now) && Queue(s, now) && Flags(s)
    requires SerialOk(s.events, s.published, sent, serial, event) && SubscriptionOk(s, sent)
    ensures var v := Next(s, step, now);
      && SerialOk(v.events, v.published, sent + multiset(Output(s, step)), serial, event)
      && SubscriptionOk(v, sent + multiset(Output(s, step)))
  {
    match step
    case Expire =>
      LiveKeeps(s.events, now);
      var kept := Live(s.events, now);
      assert forall i :: 0 <= i < |kept| ==> kept[i] in s.events;
    case Resend =>
      var first := if s.retrySubscription then [Subscribe] else [];
      ResendSends(s.events, s.published, now, sent, first, serial, event);
    case _ =>
  }

  lemma StepSends(s: Session, step: Step, now: nat, v: Session, sent: multiset<Outgoing>, serial: nat, event: EventId)
    requires Leads(s, step, now, v) && Queue(s, now) && Flags(s)
    requires SerialOk(s.events, s.published, sent, serial, event) && SubscriptionOk(s, sent)
    ensures SerialOk(v.events, v.published, sent + multiset(Output(s, step)), serial, event)
    ensures SubscriptionOk(v, sent + multiset(Output(s, step)))
  {
    NextSends(s, step, now, sent, serial, event);
  }

  lemma {:induction false} SentOk(run: seq<Session>, steps: seq<Step>, at: seq<nat>, n: nat, serial: nat,
      event: EventId)
    requires Run(run, steps, at) && n <= |steps|
    ensures SerialOk(run[n].events, run[n].published, Sent(run, steps, n), serial, event)
    ensures SubscriptionOk(run[n], Sent(run, steps, n))
  {
    if n > 0 {
      SentOk(run, steps, at, n - 1, serial, event);
      RunKeeps(run, steps, at, n - 1, at[n - 1]);
      assert Leads(run[n - 1], steps[n - 1], at[n - 1], run[n]);
      StepSends(run[n - 1], steps[n - 1], at[n - 1], run[n], Sent(run, steps, n - 1), serial, event);
    }
  }

  /** Every publication is sent at most twice, the subscription re-sent at most once,
      and the queue stays within 16 entries in the order they were sent. */
  lemma RetriesAreBounded(run: seq<Session>, steps: seq<Step>, at: seq<nat>, serial: nat, event: EventId)
    requires Run(run, steps, at)
    ensures Sent(run, steps, |steps|)[Publication(serial, event)] <= 2
    ensures Sent(run, steps, |steps|)[Subscribe] <= 1
    ensures |run[|steps|].events| <= MAX_PENDING && Sorted(run[|steps|].events)
  {
    SentOk(run, steps, at, |steps|, serial, event);
    RunKeeps(run, steps, at, |steps|, if steps == [] then 0 else at[|steps| - 1]);
  }

  /** The relay refused, for lack of authentication, the entry with this serial. */
  ghost predicate RefusedAt(run: seq<Session>, steps: seq<Step>, j: nat, serial: nat) {
    && j < |steps| < |run|
    && steps[j].EventBlocked? && steps[j].index < |run[j].events|
    && run[j].events[steps[j].index].serial == serial
    && steps[j].answer.Ack? && steps[j].answer.id == run[j].events[steps[j].index].event
    && !steps[j].answer.status && AUTH_REQUIRED <= steps[j].answer.message
  }

  lemma {:induction false} WaitingWasRefused(run: seq<Session>, steps: seq<Step>, at: seq<nat>, n: nat, i: nat)
    returns (j: nat)
    requires Run(run, steps, at) && n <= |steps| && i < |run[n].events| && run[n].events[i].waitingAuth
    ensures j < n && RefusedAt(run, steps, j, run[n].events[i].serial)
  {
    assert n > 0;
    var s, step, now := run[n - 1], steps[n - 1], at[n - 1];
    assert Leads(s, step, now, run[n]);
    RunKeeps(run, steps, at, n - 1, now);
    if step.EventBlocked? && i == step.index {
      j := n - 1;
    } else {
      var before := EntryBefore(s, step, now, i);
      j := WaitingWasRefused(run, steps, at, n - 1, before);
    }
  }

  /** An entry that waits was in the queue, waiting, before a step that did not block it. */
  lemma EntryBefore(s: Session, step: Step, now: nat, i: nat) returns (before: nat)
    requires Enabled(s, step, now) && Queue(s, now)
    requires i < |Next(s, step, now).events| && Next(s, step, now).events[i].waitingAuth
    requires !(step.EventBlocked? && i == step.index)
    ensures before < |s.events| && s.events[before] == Next(s, step, now).events[i]
  {
    var e := Next(s, step, now).events[i];
    if step == Resend {
      ResendKeepsQueue(s.events, s.published, now);
      assert false;
    } else if step == Expire {
      LiveKeeps(s.events, now);
    }
    assert e in s.events;
    before :| before < |s.events| && s.events[before] == e;
  }

  /** A retry happens only while authenticated; what it publishes was refused for lack
      of authentication earlier, waits in the queue, and is under 60 seconds old. */
  lemma RetryIsJustified(run: seq<Session>, steps: seq<Step>, at: seq<nat>, n: nat, serial: nat, event: EventId)
    returns (j: nat, i: nat)
    requires Run(run, steps, at) && n < |steps| && steps[n] == Resend
    requires Publication(serial, event) in Output(run[n], steps[n])
    ensures run[n].authenticated
    ensures j < n && RefusedAt(run, steps, j, serial)
    ensures i < |run[n].events| && run[n].events[i].serial == serial && run[n].events[i].event == event
    ensures Waiting(run[n].events[i]) && at[n] < run[n].events[i].sentAt + EVENT_TTL
  {
    assert Leads(run[n], steps[n], at[n], run[n + 1]);
    RunKeeps(run, steps, at, n, at[n]);
    PublicationCount(run[n].events, serial, event);
    var e :| e in run[n].events && e.serial == serial && e.event == event && Waiting(e);
    i :| i < |run[n].events| && run[n].events[i] == e;
    j := WaitingWasRefused(run, steps, at, n, i);
  }

  lemma NextKeepsAccessError(s: Session, step: Step, now: nat, v: Session)
    requires Leads(s, step, now, v)
    ensures s.accessError.Some? ==> v.accessError.Some?
  {
  }

  /** A publication or subscription failure is never erased, in particular not by an AUTH ack. */
  lemma {:induction false} AccessErrorKept(run: seq<Session>, steps: seq<Step>, at: seq<nat>, k: nat, n: nat)
    requires Run(run, steps, at) && k <= n <= |steps| && run[k].accessError.Some?
    ensures run[n].accessError.Some?
  {
    if k < n {
      AccessErrorKept(run, steps, at, k, n - 1);
      assert Leads(run[n - 1], steps[n - 1], at[n - 1], run[n]);
      NextKeepsAccessError(run[n - 1], steps[n - 1], at[n - 1], run[n]);
    }
  }
}
