/** The relay session as the object the connection owns. Every call takes branches of
    the machine in `RelayAuth`; the ghost history makes each sequence of calls one of
    its runs, so all results about runs hold of every session. */
module RelaySession {
  import opened Prelude
  import opened RelayAuth

  /** While authenticated nothing is left waiting for a retry. */
  predicate Settled(s: Session) {
    s.authenticated ==> !s.retrySubscription && forall i :: 0 <= i < |s.events| ==> !s.events[i].waitingAuth
  }

  /** What a call does after the branch its message takes. */
  function FollowUp(s: Session, step: Step): Option<Step> {
    match step
    case AuthAccepted(_) => Some(Resend)
    case EventBlocked(_, _) => if s.authenticated then Some(Resend) else Some(AwaitAuth)
    case SubscriptionBlocked(_) => if s.authenticated then Some(Resend) else Some(AwaitAuth)
    case _ => None
  }

  /** The branch of `tick` after expiry and the timeout check. */
  function TickStep(s: Session, sign: string -> Signing): Step {
    if !CanSign(s) then Nothing
    else if s.attempts >= MAX_AUTH_ATTEMPTS then Exhausted
    else
      SigningStep(sign(s.challenge.value))
  }

  function SigningStep(signing: Signing): Step {
    match signing
    case Signed(id) => SignedChallenge(id)
    case Locked => CouldNotSign(true)
    case Failed => CouldNotSign(false)
  }

  predicate TimesOut(s: Session, now: nat) { s.pendingAuth.Some? && s.pendingAuth.value.1 + AUTH_TIMEOUT <= now }

  // ----- History -----

  /** The branches taken so far, each with its time and the session after it. */
  datatype Past = Start(state: Session) | After(past: Past, step: Step, at: nat, state: Session)

  function Time(past: Past): nat { if past.After? then past.at else 0 }

  ghost predicate IsRun(past: Past) {
    match past
    case Start(state) => Fresh(state)
    case After(before, step, at, state) => IsRun(before) && Time(before) <= at && Leads(before.state, step, at, state)
  }

  function Steps(past: Past): seq<Step> {
    if past.Start? then [] else Steps(past.past) + [past.step]
  }

  /** A history is one of the machine's runs, so all results about runs hold of it. */
  lemma {:induction false} PastIsRun(past: Past) returns (run: seq<Session>, at: seq<nat>)
    requires IsRun(past)
    ensures Run(run, Steps(past), at) && run[|Steps(past)|] == past.state
    ensures forall i :: 0 <= i < |at| ==> at[i] <= Time(past)
  {
    if past.Start? {
      run, at := [past.state], [];
    } else {
      run, at := PastIsRun(past.past);
      RunExtends(run, Steps(past.past), at, past.step, past.at, past.state);
      run, at := run + [past.state], at + [past.at];
    }
  }

  lemma RunExtends(run: seq<Session>, steps: seq<Step>, at: seq<nat>, step: Step, now: nat, v: Session)
    requires Run(run, steps, at) && Leads(run[|steps|], step, now, v)
    requires forall i :: 0 <= i < |at| ==> at[i] <= now
    ensures Run(run + [v], steps + [step], at + [now])
  {
    var longer, all, times := run + [v], steps + [step], at + [now];
    forall i | 0 <= i < |all| ensures Leads(longer[i], all[i], times[i], longer[i + 1]) {
      if i < |steps| {
        assert Leads(run[i], steps[i], at[i], run[i + 1]);
      }
    }
  }

  lemma PastKeeps(past: Past, now: nat)
    requires IsRun(past) && Time(past) <= now
    ensures Flags(past.state) && Queue(past.state, now)
  {
    var run, at := PastIsRun(past);
    RunKeeps(run, Steps(past), at, |Steps(past)|, now);
  }

  ghost predicate Took(before: Past, after: Past, step: Step, now: nat) {
    after == After(before, step, now, after.state)
  }

  ghost predicate TookTwo(before: Past, after: Past, first: Step, second: Step, now: nat) {
    after.After? && Took(after.past, after, second, now) && Took(before, after.past, first, now)
  }

  /** The branch that `message` takes, then its follow-up. */
  ghost predicate Takes(before: Past, after: Past, message: Incoming, now: nat, messages: seq<Outgoing>) {
    var step := Classify(before.state, message);
    && Enabled(before.state, step, now)
    && var taken := Next(before.state, step, now);
       match FollowUp(taken, step)
       case Some(follow) =>
         TookTwo(before, after, step, follow, now) && messages == Output(taken, follow)
       case None =>
         Took(before, after, step, now) && messages == []
  }

  // ----- What receiving does, in the fields -----

  /** Everything that waits for a retry, published again and marked. */
  predicate Resends(before: Session, queue: seq<Entry>, after: Session, messages: seq<Outgoing>) {
    && after.events == ResentAll(queue) && !after.retrySubscription
    && messages == (if before.retrySubscription then [Subscribe] else []) + Publications(queue)
  }

  /** The relay answered the pending AUTH event. */
  predicate AuthAnswered(
    before: Session, queue: seq<Entry>, status: bool, text: string, after: Session, messages: seq<Outgoing>)
  {
    && after.pendingAuth == None && after.accessError == before.accessError && after.challenge == before.challenge
    && after.authenticated == status
    && (if status then after.authError == None && Resends(before, queue, after, messages)
        else after.authError == Some(Rejected(text)) && after.events == queue && messages == [])
  }

  predicate FirstFor(queue: seq<Entry>, id: EventId, i: nat) {
    i < |queue| && queue[i].event == id && forall j :: 0 <= j < i ==> queue[j].event != id
  }

  /** The relay answered a queued event. */
  predicate EventAnswered(
    before: Session, queue: seq<Entry>, i: nat, status: bool, text: string, after: Session, messages: seq<Outgoing>)
    requires i < |queue|
  {
    if status then
      after.events == queue[..i] + queue[i + 1..] && after.accessError == before.accessError
      && after.authError == before.authError && messages == []
    else if AUTH_REQUIRED <= text && !queue[i].retried then
      && after.accessError == before.accessError
      && (if before.authenticated
          then Resends(before, queue[i := queue[i].(waitingAuth := true)], after, messages)
               && after.authError == before.authError
          else after.events == queue[i := queue[i].(waitingAuth := true)] && messages == []
               && after.authError == if before.authError == None then Some(WaitingForChallenge) else before.authError)
    else
      after.events == queue[..i] + queue[i + 1..] && after.accessError == Some(ResponseRejected(text))
      && after.authError == before.authError && messages == []
  }

  /** The relay closed this subscription. */
  predicate SubscriptionEnded(
    before: Session, queue: seq<Entry>, text: string, after: Session, messages: seq<Outgoing>)
  {
    if AUTH_REQUIRED <= text && !before.subscriptionRetried then
      && after.accessError == before.accessError
      && (if before.authenticated
          then after.events == ResentAll(queue) && messages == [Subscribe] + Publications(queue)
               && after.subscriptionRetried && !after.retrySubscription && after.authError == before.authError
          else after.events == queue && messages == [] && after.retrySubscription
               && after.authError == if before.authError == None then Some(WaitingForChallenge) else before.authError)
    else
      after == before.(events := queue, accessError := Some(SubscriptionClosed(text))) && messages == []
  }

  /** A challenge replaces the attempt and the authentication, unless it is the same one,
      or too long. */
  predicate Challenged(before: Session, queue: seq<Entry>, text: string, after: Session) {
    if |text| > 4096 then after == before.(events := queue, authError := Some(TooLarge))
    else if before.challenge == Some(text) then after == before.(events := queue)
    else
      after == before.(
        events := queue, challenge := Some(text), attempted := false, pendingAuth := None, authenticated := false)
  }

  /** What a message changes; `queue` is what is left of the queue after expiry. */
  ghost predicate Received(
    before: Session, queue: seq<Entry>, message: Incoming, after: Session, messages: seq<Outgoing>)
  {
    match message
    case Challenge(text) => Challenged(before, queue, text, after) && messages == []
    case Ack(id, status, text) =>
      if before.pendingAuth.Some? && before.pendingAuth.value.0 == id then
        AuthAnswered(before, queue, status, text, after, messages)
      else
        && after.authenticated == before.authenticated && after.pendingAuth == before.pendingAuth
        && ((forall i :: 0 <= i < |queue| ==> queue[i].event != id) ==>
              after == before.(events := queue) && messages == [])
        && (forall i: nat {:trigger FirstFor(queue, id, i)} :: FirstFor(queue, id, i) ==>
              EventAnswered(before, queue, i, status, text, after, messages))
    case Closed(subscription, text) =>
      && after.authenticated == before.authenticated && after.pendingAuth == before.pendingAuth
      && (if subscription == before.subscription then SubscriptionEnded(before, queue, text, after, messages)
          else after == before.(events := queue) && messages == [])
    case Unrelated => after == before.(events := queue) && messages == []
  }

  lemma ChallengeInFields(before: Past, after: Past, text: string, now: nat, messages: seq<Outgoing>)
    requires IsRun(after) && Takes(before, after, Challenge(text), now, messages)
    ensures Received(before.state, before.state.events, Challenge(text), after.state, messages)
  {
  }

  lemma AuthInFields(
    before: Past, after: Past, id: EventId, status: bool, text: string, now: nat, messages: seq<Outgoing>)
    requires IsRun(after) && Takes(before, after, Ack(id, status, text), now, messages) && Flags(before.state)
    requires before.state.pendingAuth.Some? && before.state.pendingAuth.value.0 == id
    ensures Received(before.state, before.state.events, Ack(id, status, text), after.state, messages)
  {
  }

  lemma ClosedInFields(before: Past, after: Past, name: int, text: string, now: nat, messages: seq<Outgoing>)
    requires IsRun(after) && Takes(before, after, Closed(name, text), now, messages)
    ensures Received(before.state, before.state.events, Closed(name, text), after.state, messages)
  {
    if name == before.state.subscription {
      if AUTH_REQUIRED <= text && !before.state.subscriptionRetried {
        SubscriptionBlockedInFields(before, after, text, now, messages);
      } else {
        assert Classify(before.state, Closed(name, text)) == SubscriptionRejected(Closed(name, text));
      }
    }
  }

  lemma SubscriptionBlockedInFields(before: Past, after: Past, text: string, now: nat, messages: seq<Outgoing>)
    requires IsRun(after) && Takes(before, after, Closed(before.state.subscription, text), now, messages)
    requires AUTH_REQUIRED <= text && !before.state.subscriptionRetried
    ensures SubscriptionEnded(before.state, before.state.events, text, after.state, messages)
    ensures after.state.authenticated == before.state.authenticated
    ensures after.state.pendingAuth == before.state.pendingAuth
  {
    var answer := Closed(before.state.subscription, text);
    assert Classify(before.state, answer) == SubscriptionBlocked(answer);
  }

  lemma YesAt(before: Past, after: Past, id: EventId, text: string, now: nat, messages: seq<Outgoing>, i: nat)
    requires IsRun(after) && Takes(before, after, Ack(id, true, text), now, messages)
    requires !(before.state.pendingAuth.Some? && before.state.pendingAuth.value.0 == id)
    requires i == Position(before.state.events, id) < |before.state.events|
    ensures EventAnswered(before.state, before.state.events, i, true, text, after.state, messages)
    ensures after.state.authenticated == before.state.authenticated
    ensures after.state.pendingAuth == before.state.pendingAuth
  {
  }

  lemma BlockedAt(before: Past, after: Past, id: EventId, text: string, now: nat, messages: seq<Outgoing>, i: nat)
    requires IsRun(after) && Takes(before, after, Ack(id, false, text), now, messages)
    requires !(before.state.pendingAuth.Some? && before.state.pendingAuth.value.0 == id)
    requires i == Position(before.state.events, id) < |before.state.events|
    requires AUTH_REQUIRED <= text && !before.state.events[i].retried
    ensures EventAnswered(before.state, before.state.events, i, false, text, after.state, messages)
    ensures after.state.authenticated == before.state.authenticated
    ensures after.state.pendingAuth == before.state.pendingAuth
  {
    assert Classify(before.state, Ack(id, false, text)) == EventBlocked(i, Ack(id, false, text));
  }

  lemma RejectedAt(before: Past, after: Past, id: EventId, text: string, now: nat, messages: seq<Outgoing>, i: nat)
    requires IsRun(after) && Takes(before, after, Ack(id, false, text), now, messages)
    requires !(before.state.pendingAuth.Some? && before.state.pendingAuth.value.0 == id)
    requires i == Position(before.state.events, id) < |before.state.events|
    requires !(AUTH_REQUIRED <= text) || before.state.events[i].retried
    ensures EventAnswered(before.state, before.state.events, i, false, text, after.state, messages)
    ensures after.state.authenticated == before.state.authenticated
    ensures after.state.pendingAuth == before.state.pendingAuth
  {
    assert Classify(before.state, Ack(id, false, text)) == EventRejected(i, Ack(id, false, text));
  }

  lemma StrangerInFields(
    before: Past, after: Past, id: EventId, status: bool, text: string, now: nat, messages: seq<Outgoing>)
    requires IsRun(after) && Takes(before, after, Ack(id, status, text), now, messages)
    requires !(before.state.pendingAuth.Some? && before.state.pendingAuth.value.0 == id)
    requires Position(before.state.events, id) == |before.state.events|
    ensures after.state == before.state && messages == []
  {
  }

  lemma AckInFields(
    before: Past, after: Past, id: EventId, status: bool, text: string, now: nat, messages: seq<Outgoing>)
    requires IsRun(after) && Takes(before, after, Ack(id, status, text), now, messages)
    requires !(before.state.pendingAuth.Some? && before.state.pendingAuth.value.0 == id)
    ensures Received(before.state, before.state.events, Ack(id, status, text), after.state, messages)
  {
    var index := Position(before.state.events, id);
    if index == |before.state.events| {
      StrangerInFields(before, after, id, status, text, now, messages);
    } else if status {
      YesAt(before, after, id, text, now, messages, index);
    } else if AUTH_REQUIRED <= text && !before.state.events[index].retried {
      BlockedAt(before, after, id, text, now, messages, index);
    } else {
      RejectedAt(before, after, id, text, now, messages, index);
    }
  }

  /** The branch taken does what the fields say. */
  lemma TakesInFields(before: Past, after: Past, message: Incoming, now: nat, messages: seq<Outgoing>)
    requires IsRun(after) && Takes(before, after, message, now, messages) && Flags(before.state)
    ensures Received(before.state, before.state.events, message, after.state, messages)
  {
    match message
    case Challenge(text) => ChallengeInFields(before, after, text, now, messages);
    case Ack(id, status, text) =>
      if before.state.pendingAuth.Some? && before.state.pendingAuth.value.0 == id {
        AuthInFields(before, after, id, status, text, now, messages);
      } else {
        AckInFields(before, after, id, status, text, now, messages);
      }
    case Closed(name, text) => ClosedInFields(before, after, name, text, now, messages);
    case Unrelated =>
  }

  /** A message authenticates the session only as the relay's yes to its pending attempt. */
  lemma OnlyAYesAuthenticates(
    before: Session, queue: seq<Entry>, message: Incoming, after: Session, messages: seq<Outgoing>)
    requires Received(before, queue, message, after, messages)
    ensures after.authenticated && !before.authenticated ==>
      message.Ack? && message.status && before.pendingAuth.Some? && before.pendingAuth.value.0 == message.id
  {
  }

  class RelaySession {
    const subscription: int
    var challenge: Option<string>
    var attempted: bool
    var attempts: nat
    var pendingAuth: Option<(EventId, nat)>
    var authenticated: bool
    var retrySubscription: bool
    var subscriptionRetried: bool
    var events: seq<Entry>
    var authError: Option<AuthError>
    var accessError: Option<AccessError>
    var published: nat

    ghost var past: Past

    function View(): Session
      reads this
    {
      Session(subscription, challenge, attempted, attempts, pendingAuth, authenticated, retrySubscription,
              subscriptionRetried, events, authError, accessError, published)
    }

    /** The history is a run that ends in the current fields, at `now` at the latest. */
    ghost predicate Recorded(now: nat)
      reads this
    {
      IsRun(past) && past.state == View() && Time(past) <= now
    }

    ghost predicate Valid(now: nat)
      reads this
    {
      Recorded(now) && Settled(View())
    }

    constructor (subscription: int)
      ensures Valid(0) && past == Start(View()) && Fresh(View())
    {
      this.subscription := subscription;
      challenge, pendingAuth, authError, accessError := None, None, None, None;
      attempted, authenticated, retrySubscription, subscriptionRetried := false, false, false, false;
      attempts, published, events := 0, 0, [];
      new;
      past := Start(View());
    }

    ghost method Record(step: Step, now: nat)
      requires IsRun(past) && Time(past) <= now && Leads(past.state, step, now, View())
      modifies this`past
      ensures Recorded(now) && past == After(old(past), step, now, View())
    {
      past := After(past, step, now, View());
    }

    method Error() returns (error: bool)
      ensures error <==> accessError.Some? || authError.Some?
    {
      error := accessError.Some? || authError.Some?;
    }

    method Publish(event: EventId, now: nat) returns (message: Outgoing)
      requires Valid(now)
      modifies this
      ensures Valid(now) && past == After(old(past), RelayAuth.Publish(event), now, View())
      ensures message == Publication(old(published), event) && published == old(published) + 1
      ensures events == (if |old(events)| == 16 then old(events)[1..] else old(events))
                        + [Entry(old(published), event, now, false, false)]
      ensures View() == old(View()).(events := events, published := published)
    {
      message := Publication(published, event);
      if |events| == MAX_PENDING {
        events := events[1..];
      }
      events := events + [Entry(published, event, now, false, false)];
      published := published + 1;
      Record(RelayAuth.Publish(event), now);
    }

    /** Drops the entries that reached the age limit. */
    method ExpireEvents(now: nat)
      requires Recorded(now)
      modifies this`events, this`past
      ensures Recorded(now) && past == After(old(past), Expire, now, View())
      ensures View() == old(View()).(events := Live(old(events), now)) && AllLive(events, now)
      ensures forall e :: e in events <==> e in old(events) && now < e.sentAt + 60_000
      ensures old(Settled(View())) ==> Settled(View())
    {
      QueueHolds(now);
      LiveKeeps(events, now);
      var kept := Unexpired(now);
      assert forall j :: 0 <= j < |kept| ==> kept[j] in events;
      events := kept;
      Record(Expire, now);
    }

    method Unexpired(now: nat) returns (kept: seq<Entry>)
      ensures kept == Live(events, now)
    {
      kept := [];
      var i := 0;
      while i < |events|
        invariant 0 <= i <= |events|
        invariant kept == Live(events[..i], now)
      {
        if now < events[i].sentAt + EVENT_TTL {
          kept := kept + [events[i]];
        }
        i := i + 1;
        assert events[..i][..i - 1] == events[..i - 1];
      }
      assert events[..i] == events;
    }

    method FindEvent(id: EventId) returns (index: nat)
      ensures index == Position(events, id)
    {
      index := 0;
      while index < |events|
        invariant 0 <= index <= |events|
        invariant forall i :: 0 <= i < index ==> events[i].event != id
      {
        if events[index].event == id {
          PositionUnique(events, id, index);
          return;
        }
        index := index + 1;
      }
      PositionUnique(events, id, index);
    }

    /** Marks and returns everything that waits, in place. */
    method ResendQueue() returns (messages: seq<Outgoing>)
      modifies this`events
      ensures events == ResentAll(old(events)) && messages == Publications(old(events))
    {
      messages := [];
      ghost var queue := events;
      var i := 0;
      while i < |events|
        invariant 0 <= i <= |events| == |queue|
        invariant forall j :: 0 <= j < i ==> events[j] == Resent(queue[j])
        invariant forall j :: i <= j < |events| ==> events[j] == queue[j]
        invariant messages == Publications(queue[..i])
      {
        PublishesOneMore(queue, i);
        if events[i].waitingAuth && !events[i].retried {
          messages := messages + [Publication(events[i].serial, events[i].event)];
          events := events[i := events[i].(waitingAuth := false, retried := true)];
        }
        i := i + 1;
      }
      assert queue[..i] == queue;
      forall j: nat | j < |queue| ensures events[j] == ResentAll(queue)[j] {
        ResentAt(queue, j);
      }
    }

    method Retry(now: nat) returns (messages: seq<Outgoing>)
      requires Recorded(now) && authenticated && AllLive(events, now)
      modifies this`events, this`retrySubscription, this`subscriptionRetried, this`past
      ensures Valid(now) && past == After(old(past), Resend, now, View())
      ensures messages == Output(old(View()), Resend) && Resends(old(View()), old(events), View(), messages)
    {
      QueueHolds(now);
      ResendKeepsQueue(events, published, now);
      messages := [];
      if retrySubscription {
        retrySubscription, subscriptionRetried := false, true;
        messages := [Subscribe];
      }
      var publications := ResendQueue();
      messages := messages + publications;
      Record(Resend, now);
    }

    lemma QueueHolds(now: nat)
      requires Recorded(now)
      ensures QueueOk(events, published, now)
    {
      PastKeeps(past, now);
    }

    /** Every message takes the machine's branches from the session after expiry, and
        changes the fields as `Received` says; in particular only the relay's yes to the
        pending attempt authenticates. */
    method Receive(message: Incoming, now: nat) returns (messages: seq<Outgoing>)
      requires Valid(now)
      modifies this
      ensures Valid(now)
      ensures Takes(After(old(past), Expire, now, Next(old(View()), Expire, now)), past, message, now, messages)
      ensures Received(old(View()), Live(old(events), now), message, View(), messages)
      ensures authenticated && !old(authenticated) ==>
        message.Ack? && message.status && old(pendingAuth).Some? && old(pendingAuth).value.0 == message.id
    {
      ExpireEvents(now);
      ghost var before := past;
      messages := Dispatch(message, now);
      PastKeeps(before, now);
      TakesInFields(before, past, message, now, messages);
      SameButQueue(old(View()), before.state, message, View(), messages);
      OnlyAYesAuthenticates(old(View()), before.state.events, message, View(), messages);
    }

    method Dispatch(message: Incoming, now: nat) returns (messages: seq<Outgoing>)
      requires Valid(now) && AllLive(events, now)
      modifies this
      ensures Valid(now) && Takes(old(past), past, message, now, messages)
    {
      match message
      case Challenge(text) =>
        messages := ReceiveChallenge(text, now);
      case Ack(id, status, text) =>
        if pendingAuth.Some? && pendingAuth.value.0 == id {
          messages := ReceiveAuthAck(id, status, text, now);
        } else {
          messages := ReceiveEventAck(id, status, text, now);
        }
      case Closed(name, text) =>
        messages := ReceiveClosed(name, text, now);
      case Unrelated =>
        messages := [];
        Record(Nothing, now);
    }

    method ReceiveChallenge(text: string, now: nat) returns (messages: seq<Outgoing>)
      requires Valid(now)
      modifies this
      ensures Valid(now) && Takes(old(past), past, Challenge(text), now, messages)
    {
      messages := [];
      if |text| > MAX_CHALLENGE_BYTES {
        authError := Some(TooLarge);
        Record(ChallengeTooLong, now);
      } else if challenge == Some(text) {
        Record(ChallengeRepeated, now);
      } else {
        challenge, attempted, pendingAuth, authenticated := Some(text), false, None, false;
        Record(ChallengeChanged(text), now);
      }
    }

    method ReceiveAuthAck(id: EventId, status: bool, text: string, now: nat) returns (messages: seq<Outgoing>)
      requires Valid(now) && AllLive(events, now)
      requires pendingAuth.Some? && pendingAuth.value.0 == id
      modifies this
      ensures Valid(now) && Takes(old(past), past, Ack(id, status, text), now, messages)
    {
      messages := [];
      pendingAuth := None;
      if status {
        authenticated, authError := true, None;
        Record(AuthAccepted(Ack(id, status, text)), now);
        messages := Retry(now);
      } else {
        authError := Some(Rejected(text));
        Record(AuthRejected(Ack(id, status, text)), now);
      }
    }

    method ReceiveEventAck(id: EventId, status: bool, text: string, now: nat) returns (messages: seq<Outgoing>)
      requires Valid(now) && AllLive(events, now)
      requires !(pendingAuth.Some? && pendingAuth.value.0 == id)
      modifies this
      ensures Valid(now) && Takes(old(past), past, Ack(id, status, text), now, messages)
    {
      messages := [];
      var index := FindEvent(id);
      if index == |events| {
        Record(Nothing, now);
      } else if !status && AuthRequired(text) && !events[index].retried {
        assert Classify(View(), Ack(id, status, text)) == EventBlocked(index, Ack(id, false, text));
        messages := BlockEvent(index, id, text, now);
      } else {
        assert Classify(View(), Ack(id, status, text)) ==
          if status then EventSettled(index, Ack(id, true, text)) else EventRejected(index, Ack(id, false, text));
        DropEvent(index, id, status, text, now);
      }
    }

    method BlockEvent(index: nat, id: EventId, text: string, now: nat) returns (messages: seq<Outgoing>)
      requires Valid(now) && AllLive(events, now) && index < |events| && events[index].event == id
      requires AuthRequired(text) && !events[index].retried
      modifies this
      ensures Valid(now)
      ensures TookTwo(old(past), past, EventBlocked(index, Ack(id, false, text)),
        if old(authenticated) then Resend else AwaitAuth, now)
      ensures var blocked := old(View()).(events := old(events)[index := old(events)[index].(waitingAuth := true)]);
        messages == if old(authenticated) then Output(blocked, Resend) else []
    {
      events := events[index := events[index].(waitingAuth := true)];
      Record(EventBlocked(index, Ack(id, false, text)), now);
      messages := RetryOrWait(now);
    }

    method DropEvent(index: nat, id: EventId, status: bool, text: string, now: nat)
      requires Valid(now) && index < |events| && events[index].event == id
      modifies this`events, this`accessError, this`past
      ensures Valid(now)
      ensures Took(old(past), past,
        if status then EventSettled(index, Ack(id, true, text)) else EventRejected(index, Ack(id, false, text)), now)
    {
      events := events[..index] + events[index + 1..];
      if status {
        Record(EventSettled(index, Ack(id, true, text)), now);
      } else {
        accessError := Some(ResponseRejected(text));
        Record(EventRejected(index, Ack(id, false, text)), now);
      }
    }

    method ReceiveClosed(name: int, text: string, now: nat) returns (messages: seq<Outgoing>)
      requires Valid(now) && AllLive(events, now)
      modifies this
      ensures Valid(now) && Takes(old(past), past, Closed(name, text), now, messages)
    {
      messages := [];
      if name != subscription {
        Record(Nothing, now);
      } else if AuthRequired(text) && !subscriptionRetried {
        retrySubscription := true;
        Record(SubscriptionBlocked(Closed(name, text)), now);
        messages := RetryOrWait(now);
      } else {
        accessError := Some(SubscriptionClosed(text));
        Record(SubscriptionRejected(Closed(name, text)), now);
      }
    }

    /** Retries at once when authenticated, else notes that a challenge is awaited. */
    method RetryOrWait(now: nat) returns (messages: seq<Outgoing>)
      requires Recorded(now) && AllLive(events, now)
      modifies this
      ensures Valid(now)
      ensures Took(old(past), past, if old(authenticated) then Resend else AwaitAuth, now)
      ensures messages == if old(authenticated) then Output(old(View()), Resend) else []
    {
      messages := [];
      if authenticated {
        messages := Retry(now);
      } else {
        if authError == None {
          authError := Some(WaitingForChallenge);
        }
        Record(AwaitAuth, now);
      }
    }

    /** Signs only through `sign`, which fails while the vault is locked. An AUTH message
        is sent exactly when a challenge is installed, not yet attempted and not
        authenticated, fewer than three were signed on this socket, and signing works; it
        is for that challenge, and is pending from now. An attempt of 15 seconds is dropped. */
    method Tick(sign: string -> Signing, now: nat) returns (messages: seq<Outgoing>)
      requires Valid(now)
      modifies this
      ensures Valid(now)
      ensures events == Live(old(events), now) && challenge == old(challenge) && authenticated == old(authenticated)
      ensures var signs := !old(attempted) && !old(authenticated) && old(challenge).Some? && old(attempts) < 3
          && sign(old(challenge).value).Signed?;
        if signs then
          var id := sign(old(challenge).value).id;
          && messages == [Auth(id, old(challenge).value)] && pendingAuth == Some((id, now))
          && attempts == old(attempts) + 1
        else
          && messages == [] && attempts == old(attempts)
          && pendingAuth == if old(pendingAuth).Some? && old(pendingAuth).value.1 + 15_000 <= now then None
                            else old(pendingAuth)
      // Locked leaves the challenge to be tried again; any other failure does not.
      ensures if old(attempted) || old(authenticated) || old(challenge).None? then
          && attempted == old(attempted)
          && authError == if old(pendingAuth).Some? && old(pendingAuth).value.1 + 15_000 <= now then Some(TimedOut)
                          else old(authError)
        else if old(attempts) >= 3 then attempted && authError == Some(TooMany)
        else
          match sign(old(challenge).value)
          case Signed(_) => attempted && authError == Some(Authenticating)
          case Locked => !attempted && authError == Some(MustUnlock)
          case Failed => attempted && authError == Some(CannotSign)
    {
      ExpireEvents(now);
      DropTimedOut(now);
      messages := Authenticate(sign, now);
    }

    method DropTimedOut(now: nat)
      requires Valid(now)
      modifies this`pendingAuth, this`authError, this`past
      ensures Valid(now)
      ensures if TimesOut(old(View()), now)
        then Took(old(past), past, AuthTimedOut, now) && pendingAuth == None && authError == Some(TimedOut)
        else past == old(past) && View() == old(View())
    {
      if pendingAuth.Some? && pendingAuth.value.1 + AUTH_TIMEOUT <= now {
        pendingAuth, authError := None, Some(TimedOut);
        Record(AuthTimedOut, now);
      }
    }

    method Authenticate(sign: string -> Signing, now: nat) returns (messages: seq<Outgoing>)
      requires Valid(now)
      modifies this
      ensures Valid(now)
      ensures Took(old(past), past, TickStep(old(View()), sign), now)
      ensures messages == Output(old(View()), TickStep(old(View()), sign))
      ensures events == old(events) && challenge == old(challenge) && authenticated == old(authenticated)
      ensures var step := TickStep(old(View()), sign);
        && pendingAuth == (if step.SignedChallenge? then Some((step.id, now)) else old(pendingAuth))
        && attempts == if step.SignedChallenge? then old(attempts) + 1 else old(attempts)
      ensures if !CanSign(old(View())) then attempted == old(attempted) && authError == old(authError)
        else if old(attempts) >= 3 then attempted && authError == Some(TooMany)
        else
          match sign(old(challenge).value)
          case Signed(_) => attempted && authError == Some(Authenticating)
          case Locked => !attempted && authError == Some(MustUnlock)
          case Failed => attempted && authError == Some(CannotSign)
    {
      messages := [];
      if attempted || authenticated || challenge == None {
        Record(Nothing, now);
        return;
      }
      if attempts >= MAX_AUTH_ATTEMPTS {
        attempted, authError := true, Some(TooMany);
        Record(Exhausted, now);
        return;
      }
      messages := SignChallenge(sign(challenge.value), now);
    }

    method SignChallenge(signing: Signing, now: nat) returns (messages: seq<Outgoing>)
      requires Valid(now) && CanSign(View()) && attempts < MAX_AUTH_ATTEMPTS
      modifies this`attempts, this`attempted, this`pendingAuth, this`authError, this`past
      ensures Valid(now) && Took(old(past), past, SigningStep(signing), now)
      ensures if signing.Signed?
        then messages == [Auth(signing.id, challenge.value)] && pendingAuth == Some((signing.id, now))
             && attempts == old(attempts) + 1
        else messages == [] && pendingAuth == old(pendingAuth) && attempts == old(attempts)
      ensures attempted == !signing.Locked?
      ensures authError == Some(
        if signing.Signed? then Authenticating else if signing.Locked? then MustUnlock else CannotSign)
    {
      messages := [];
      match signing
      case Signed(id) =>
        messages := [Auth(id, challenge.value)];
        attempts, attempted := attempts + 1, true;
        pendingAuth, authError := Some((id, now)), Some(Authenticating);
        Record(SignedChallenge(id), now);
      case Locked =>
        authError := Some(MustUnlock);
        Record(CouldNotSign(true), now);
      case Failed =>
        attempted, authError := true, Some(CannotSign);
        Record(CouldNotSign(false), now);
    }
  }

  /** Expiry changes only the queue. */
  lemma SameButQueue(before: Session, expired: Session, message: Incoming, after: Session, messages: seq<Outgoing>)
    requires expired == before.(events := expired.events)
    requires Received(expired, expired.events, message, after, messages)
    ensures Received(before, expired.events, message, after, messages)
  {
  }

  lemma PublishesOneMore(queue: seq<Entry>, i: nat)
    requires i < |queue|
    ensures Publications(queue[..i + 1]) ==
      Publications(queue[..i]) + (if Waiting(queue[i]) then [Publication(queue[i].serial, queue[i].event)] else [])
  {
    assert queue[..i + 1][..i] == queue[..i];
  }

  lemma {:induction false} PositionUnique(events: seq<Entry>, id: EventId, index: nat)
    requires index <= |events|
    requires forall i :: 0 <= i < index ==> events[i].event != id
    requires index < |events| ==> events[index].event == id
    ensures Position(events, id) == index
  {
  }
}
