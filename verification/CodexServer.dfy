/**
 The request demultiplexer of the Codex app-server client (aicoder/account_providers.py, CodexAppServer). A reader
 thread appends messages to a shared queue; requests and waits take from it and put back what is not theirs.
 What a wait meets is a sequence of polls: at each the reader may have delivered messages, or the process has exited.
 */
module CodexServer {
  import opened Wrappers

  datatype Message = Message(
    id: Option<int>,
    isError: bool,
    kind: Option<string>,
    loginId: string,
    authUrl: string,
    success: bool,
    body: string)

  datatype Failure = NotSent | TimedOut | ProcessExited | NoLogin | Refused(reply: Message)

  /** One poll of a wait: what the reader delivered until then, or the end of the process. */
  datatype Poll = Tick(batch: seq<Message>) | Exit

  /** What a request meets: whether it could be sent, and the polls of its wait. */
  datatype Attempt = Attempt(sent: bool, polls: seq<Poll>)

  /** Everything delivered during some polls. */
  function Batches(polls: seq<Poll>): seq<Message> {
    if polls == [] then []
    else Batches(polls[..|polls| - 1]) + if polls[|polls| - 1].Tick? then polls[|polls| - 1].batch else []
  }

  /** The process is alive for the first `n` polls. */
  predicate Alive(polls: seq<Poll>, n: nat) {
    n <= |polls| && forall j | 0 <= j < n :: polls[j].Tick?
  }

  /** The message that is gone from the queue after a call, if any. */
  function Answer(r: Result<Message, Failure>): Option<Message> {
    match r
    case Success(m) => Some(m)
    case Failure(Refused(m)) => Some(m)
    case Failure(_) => None
  }

  /** What a caller waits for: the reply with a request's own id, or a notification of a kind, which carries no id. */
  datatype Wanted = ReplyTo(id: int) | Notification(kind: string)

  predicate Matches(wanted: Wanted, m: Message) {
    match wanted
    case ReplyTo(id) => m.id == Some(id)
    case Notification(kind) => m.kind == Some(kind) && m.id.None?
  }

  const LOGIN_DONE := "account/login/completed"

  /** The notification that ends a login, successfully or not. */
  predicate CompletesLogin(m: Message, login: string) {
    m.kind == Some(LOGIN_DONE) && m.loginId == login
  }

  function WithAnswer(answers: map<int, Message>, id: int, m: Option<Message>): map<int, Message> {
    if m.Some? then answers[id := m.value] else answers
  }

  /** What is left of a stream when its first `k` messages were passed over and message `k` was taken. */
  ghost predicate TookAt(stream: seq<Message>, queue: seq<Message>, k: nat) {
    k < |stream| && queue == stream[k + 1..] + stream[..k]
  }

  /** What is left of a stream when its first `k` messages were passed over. */
  ghost predicate PassedOver(stream: seq<Message>, queue: seq<Message>, k: nat) {
    k <= |stream| && queue == stream[k..] + stream[..k]
  }

  /** None of the first `k` messages is wanted. */
  ghost predicate NoneBefore(stream: seq<Message>, k: nat, wanted: Wanted) {
    k <= |stream| && forall j | 0 <= j < k :: !Matches(wanted, stream[j])
  }

  /**
   The effect of looking for a wanted message: the first one is taken and those before it move behind the rest, or
   none was found and those passed over move behind the rest.
   */
  ghost predicate Searched(stream: seq<Message>, queue: seq<Message>, wanted: Wanted, found: Option<Message>) {
    match found
    case Some(m) => exists k: nat :: TookAt(stream, queue, k) && stream[k] == m && Matches(wanted, m) && NoneBefore(stream, k, wanted)
    case None => exists k: nat :: PassedOver(stream, queue, k) && NoneBefore(stream, k, wanted)
  }

  lemma NothingSearched(queue: seq<Message>, wanted: Wanted)
    ensures Searched(queue, queue, wanted, None)
  {
    assert PassedOver(queue, queue, 0) && NoneBefore(queue, 0, wanted);
  }

  lemma FoundMatches(stream: seq<Message>, queue: seq<Message>, wanted: Wanted, found: Option<Message>)
    requires Searched(stream, queue, wanted, found)
    ensures found.Some? ==> Matches(wanted, found.value)
  {
  }

  lemma NothingMore(consumed: multiset<Message>)
    ensures consumed + One(None) == consumed
  {
  }

  lemma MovedBehind(a: seq<Message>, b: seq<Message>)
    ensures multiset(b + a) == multiset(a + b)
  {
  }

  lemma TakenFromBetween(a: seq<Message>, m: Message, b: seq<Message>)
    ensures multiset(b + a) + multiset{m} == multiset(a + ([m] + b))
  {
  }

  /** Searching a stream neither loses nor duplicates a message. */
  lemma SearchingConserves(stream: seq<Message>, queue: seq<Message>, wanted: Wanted, found: Option<Message>)
    requires Searched(stream, queue, wanted, found)
    ensures multiset(queue) + One(found) == multiset(stream)
  {
    hide NoneBefore, Matches;
    match found
    case Some(m) =>
      var k: nat :| TookAt(stream, queue, k) && stream[k] == m;
      Halves(stream, k);
      TakenFromBetween(stream[..k], m, stream[k + 1..]);
    case None =>
      var k: nat :| PassedOver(stream, queue, k);
      assert stream == stream[..k] + stream[k..];
      MovedBehind(stream[..k], stream[k..]);
  }

  lemma Halves(stream: seq<Message>, k: nat)
    requires k < |stream|
    ensures stream == stream[..k] + ([stream[k]] + stream[k + 1..])
  {
  }

  lemma StreamCounts(start: seq<Message>, a: seq<Message>, c: seq<Message>)
    requires a <= c
    ensures multiset(start + c[|a|..]) + multiset(a) == multiset(start) + multiset(c)
  {
    assert c == a + c[|a|..];
  }

  /** The balance of a call: what is queued, held or consumed afterwards is what was delivered. */
  lemma Balance(queued: multiset<Message>, held: multiset<Message>, consumed: multiset<Message>,
                delivered: multiset<Message>,
                stream: multiset<Message>, left: multiset<Message>, taken: multiset<Message>, now: multiset<Message>)
    requires queued + held + consumed == delivered
    requires stream + delivered == queued + now
    requires left + taken == stream
    ensures left + held + (consumed + taken) == now
    ensures left + (held + taken) + consumed == now
  {
    forall m: Message
      ensures (left + held + (consumed + taken))[m] == now[m]
      ensures (left + (held + taken) + consumed)[m] == now[m]
    {
      assert (queued + held + consumed)[m] == delivered[m];
      assert (stream + delivered)[m] == (queued + now)[m];
      assert (left + taken)[m] == stream[m];
    }
  }

  /** Every message is waiting, held, or consumed. */
  ghost predicate Balanced(queue: seq<Message>, held: multiset<Message>, consumed: multiset<Message>,
                           delivered: seq<Message>) {
    multiset(queue) + held + consumed == multiset(delivered)
  }

  lemma SearchKeepsBalance(start: seq<Message>, before: seq<Message>, now: seq<Message>, held: multiset<Message>,
                           consumed: multiset<Message>,
                           queue: seq<Message>, wanted: Wanted, found: Option<Message>)
    requires before <= now && Balanced(start, held, consumed, before)
    requires Searched(start + now[|before|..], queue, wanted, found)
    ensures Balanced(queue, held, consumed + One(found), now)
    ensures found.Some? ==> Matches(wanted, found.value)
  {
    hide Matches;
    var stream := start + now[|before|..];
    StreamCounts(start, before, now);
    SearchingConserves(stream, queue, wanted, found);
    hide Searched, Balanced, One;
    Balance(multiset(start), held, consumed, multiset(before), multiset(stream), multiset(queue), One(found),
            multiset(now));
    FoundMatches(stream, queue, wanted, found);
  }

  lemma ReceivingKeepsBalance(start: seq<Message>, before: seq<Message>, now: seq<Message>, held: multiset<Message>,
                              consumed: multiset<Message>,
                              queue: seq<Message>, message: Option<Message>)
    requires before <= now && Balanced(start, held, consumed, before)
    requires start + now[|before|..] == (if message.Some? then [message.value] else []) + queue
    ensures Balanced(queue, held + One(message), consumed, now)
  {
    var stream := start + now[|before|..];
    StreamCounts(start, before, now);
    Balance(multiset(start), held, consumed, multiset(before), multiset(stream), multiset(queue), One(message),
            multiset(now));
  }

  lemma ReleasingKeepsBalance(queue: seq<Message>, held: multiset<Message>, consumed: multiset<Message>,
                              delivered: seq<Message>, deferred: seq<Message>)
    requires Balanced(queue, held, consumed, delivered) && multiset(deferred) <= held
    ensures Balanced(queue + deferred, held - multiset(deferred), consumed, delivered)
  {
  }

  lemma ConsumingKeepsBalance(queue: seq<Message>, held: multiset<Message>, consumed: multiset<Message>,
                              delivered: seq<Message>, m: Message)
    requires Balanced(queue, held, consumed, delivered) && m in held
    ensures Balanced(queue, held - multiset{m}, consumed + multiset{m}, delivered)
  {
  }

  function One(m: Option<Message>): multiset<Message> {
    if m.Some? then multiset{m.value} else multiset{}
  }

  class CodexAppServer {
    var queue: seq<Message>
    var nextId: nat
    /** Every message the reader delivered, in order. */
    ghost var delivered: seq<Message>
    /** Every message a caller consumed. */
    ghost var consumed: multiset<Message>
    /** Messages an outer caller holds back during a nested request. */
    ghost var held: multiset<Message>
    /** The response each request consumed. */
    ghost var answers: map<int, Message>

    /** No message is lost or duplicated, and each request got the response carrying its id. */
    ghost predicate Valid()
      reads this
    {
      && Balanced(queue, held, consumed, delivered)
      && (forall id | id in answers :: id < nextId && answers[id].id == Some(id) && answers[id] in consumed)
    }

    constructor ()
      ensures Valid() && queue == [] && nextId == 1 && delivered == [] && held == consumed == multiset{}
      ensures answers == map[]
    {
      queue, nextId := [], 1;
      delivered, consumed, held, answers := [], multiset{}, multiset{}, map[];
    }

    /** The messages waiting at the start of a call and those delivered during it. */
    twostate function Stream(): seq<Message>
      requires old(delivered) <= delivered
      reads this
    {
      old(queue) + delivered[|old(delivered)|..]
    }

    /**
     One wait for a message: poll after poll until a message waits, the process has exited or no poll is left. A waiting
     message is taken at the first poll, unless the process has exited.
     */
    method Receive(polls: seq<Poll>) returns (r: Result<Message, Failure>, used: nat)
      modifies this`queue, this`delivered
      ensures used <= |polls| && Alive(polls, used) && delivered == old(delivered) + Batches(polls[..used])
      ensures r.Success? ==> used > 0 && Stream() == [r.value] + queue
      ensures r.Success? && old(queue) != [] ==> used == 1
      ensures r.Failure? ==> queue == Stream() && (used > 0 ==> queue == [])
      ensures r.Failure? ==> r.error == if used == |polls| then TimedOut else ProcessExited
      ensures r.Failure? && used < |polls| ==> polls[used].Exit?
    {
      hide Batches, Stream;
      NoBatches(polls);
      ghost var arrived: seq<Message> := [];
      used := 0;
      while used < |polls|
        invariant 0 <= used <= |polls| && Alive(polls, used) && arrived == Batches(polls[..used])
        invariant delivered == old(delivered) + arrived && queue == old(queue) + arrived
        invariant used > 0 ==> queue == []
      {
        if polls[used].Exit? {
          StreamIs(arrived);
          return Failure(ProcessExited), used;
        }
        var batch := polls[used].batch;
        OneMorePoll(polls, used);
        used := used + 1;
        queue, delivered, arrived := queue + batch, delivered + batch, arrived + batch;
        if queue != [] {
          var message := queue[0];
          assert queue == [message] + queue[1..];
          queue := queue[1..];
          StreamIs(arrived);
          return Success(message), used;
        }
      }
      StreamIs(arrived);
      return Failure(TimedOut), used;
    }

    twostate lemma StreamIs(arrived: seq<Message>)
      requires delivered == old(delivered) + arrived
      ensures old(delivered) <= delivered && Stream() == old(queue) + arrived
    {
    }

    /** Put deferred messages back at the end of the queue. */
    method PutBack(deferred: seq<Message>)
      modifies this`queue
      ensures queue == old(queue) + deferred
    {
      var i := 0;
      while i < |deferred|
        invariant 0 <= i <= |deferred| && queue == old(queue) + deferred[..i]
      {
        queue := queue + [deferred[i]];
        i := i + 1;
      }
    }

    /**
     The loop of a request or a wait: receive until the wanted message comes, then put the others back. It does not give
     up on a wanted message that waits already while there are polls for it and for the messages before it.
     */
    method Search(wanted: Wanted, polls: seq<Poll>) returns (r: Result<Message, Failure>)
      modifies this`queue, this`delivered
      ensures old(delivered) <= delivered
      ensures Searched(Stream(), queue, wanted, if r.Success? then Some(r.value) else None)
      ensures r.Failure? ==> r.error == TimedOut || r.error == ProcessExited
      ensures r.Failure? ==> forall k | 0 <= k < |old(queue)| && Alive(polls, k + 1) :: !Matches(wanted, old(queue)[k])
      ensures r.Failure? && Alive(polls, |polls|) ==> r.error == TimedOut
                                                      && delivered == old(delivered) + Batches(polls)
    {
      hide Matches, Batches, Searched;
      NoBatches(polls);
      var deferred: seq<Message> := [];
      var spent := 0;
      while true
        invariant 0 <= spent <= |polls| && Alive(polls, spent)
        invariant delivered == old(delivered) + Batches(polls[..spent])
        invariant Stream() == deferred + queue
        invariant |deferred| < |old(queue)| ==> |deferred| == spent
        invariant forall j | 0 <= j < |deferred| :: !Matches(wanted, deferred[j])
        decreases |polls| - spent
      {
        ghost var waiting, seen := queue, delivered;
        var received, used := Receive(polls[spent..]);
        MorePolls(polls, spent, used);
        StreamGrows(old(queue), old(delivered), seen, delivered, deferred, waiting);
        ghost var k, rest := |deferred|, queue;
        if received.Failure? {
          WaitingWasLookedAt(old(queue), Stream(), deferred, queue, polls, spent, used);
          if Alive(polls, |polls|) { assert polls[..spent + used] == polls; }
          PutBack(deferred);
          AllPassedOver(Stream(), deferred, rest, wanted);
          return received;
        }
        var message := received.value;
        spent := spent + used;
        if Matches(wanted, message) {
          PutBack(deferred);
          TakenAfter(Stream(), deferred, message, rest, wanted);
          return received;
        }
        deferred := deferred + [message];
        assert Stream() == deferred + queue;
      }
    }

    /**
     `_request`: take the first message of the stream with the request's own id. A failure takes nothing, except for
     an error reply with that id. It fails without that message only when it was not sent, the process has exited, or no
     poll was left for it.
     */
    method Request(attempt: Attempt) returns (r: Result<Message, Failure>)
      requires Valid()
      modifies this
      ensures Valid() && held == old(held) && nextId == old(nextId) + 1 && old(delivered) <= delivered
      ensures consumed == old(consumed) + One(Answer(r))
      ensures answers == if Answer(r).Some? then old(answers)[old(nextId) := Answer(r).value] else old(answers)
      ensures Searched(Stream(), queue, ReplyTo(old(nextId)), Answer(r))
      ensures Answer(r).Some? ==> Answer(r).value.id == Some(old(nextId)) && (r.Success? <==> !Answer(r).value.isError)
      ensures r == Failure(NotSent) <==> !attempt.sent
      ensures attempt.sent && Answer(r).None? ==>
                forall k | 0 <= k < |old(queue)| && Alive(attempt.polls, k + 1) :: old(queue)[k].id != Some(old(nextId))
      ensures attempt.sent && Answer(r).None? && Alive(attempt.polls, |attempt.polls|) ==> r == Failure(TimedOut)
    {
      hide Searched, Balanced, One;
      var requestId := nextId;
      nextId := nextId + 1;
      var wanted := ReplyTo(requestId);
      if attempt.sent {
        r := Search(wanted, attempt.polls);
      } else {
        NothingSearched(queue, wanted);
        assert Stream() == queue;
        r := Failure(NotSent);
      }
      ghost var found := if r.Success? then Some(r.value) else None;
      SearchKeepsBalance(old(queue), old(delivered), delivered, held, consumed, queue, wanted, found);
      Consume(found);
      if r.Success? {
        answers := answers[requestId := r.value];
        if r.value.isError { r := Failure(Refused(r.value)); }
      }
    }

    /** Note the message a search took. */
    ghost method Consume(found: Option<Message>)
      requires Balanced(queue, held, consumed + One(found), delivered)
      modifies this`consumed
      ensures consumed == old(consumed) + One(found) && Balanced(queue, held, consumed, delivered)
      ensures forall m | m in old(consumed) :: m in consumed
      ensures found.Some? ==> found.value in consumed
    {
      consumed := consumed + One(found);
    }

    /** `wait_notification`: like a request, for the first notification of a kind; it belongs to no request. */
    method WaitNotification(kind: string, polls: seq<Poll>) returns (r: Result<Message, Failure>)
      requires Valid()
      modifies this`queue, this`delivered, this`consumed
      ensures Valid() && old(delivered) <= delivered
      ensures consumed == old(consumed) + One(Answer(r))
      ensures Searched(Stream(), queue, Notification(kind), Answer(r))
      ensures Answer(r).Some? <==> r.Success?
      ensures r.Success? ==> r.value.kind == Some(kind) && r.value.id.None?
      ensures r.Failure? ==> forall k | 0 <= k < |old(queue)| && Alive(polls, k + 1) ::
                               old(queue)[k].kind != Some(kind) || old(queue)[k].id.Some?
    {
      hide Searched, Balanced, One;
      var wanted := Notification(kind);
      r := Search(wanted, polls);
      ghost var found := if r.Success? then Some(r.value) else None;
      SearchKeepsBalance(old(queue), old(delivered), delivered, held, consumed, queue, wanted, found);
      Consume(found);
    }

    /**
     `login_chatgpt`: a request, then a wait for the completion of this very login, then a nested request while the
     deferred messages are still held back. Exactly the start reply, the completion and the account reply are consumed,
     as far as they came.
     */
    method LoginChatgpt(first: Attempt, polls: seq<Poll>, nested: Attempt)
      returns (account: Result<Message, Failure>, ghost start: Option<Message>,
               ghost done: Option<Message>, ghost reply: Option<Message>)
      requires Valid()
      modifies this
      ensures Valid() && held == old(held) && old(delivered) <= delivered
      ensures consumed == old(consumed) + One(start) + One(done) + One(reply)
      ensures start.Some? ==> start.value.id == Some(old(nextId))
      ensures done.Some? ==> start.Some? && !start.value.isError && done.value.kind == Some("account/login/completed")
                             && done.value.loginId == start.value.loginId
      ensures start.Some? && !start.value.isError && (start.value.loginId == "" || start.value.authUrl == "") ==>
                account == Failure(NoLogin) && done.None?
      ensures reply.Some? ==> done.Some? && done.value.success && reply.value.id == Some(old(nextId) + 1)
      ensures answers == WithAnswer(WithAnswer(old(answers), old(nextId), start), old(nextId) + 1, reply)
      ensures nextId == old(nextId) + if done.Some? && done.value.success then 2 else 1
      ensures account.Success? <==> reply.Some? && !reply.value.isError
      ensures account.Success? ==> account == Success(reply.value)
    {
      hide Searched, Balanced, One, CompletesLogin;
      done, reply := None, None;
      account := Request(first);
      start := Answer(account);
      FoundMatches(Stream(), queue, ReplyTo(old(nextId)), start);
      NothingMore(consumed);
      if account.Failure? { return; }
      var login := account.value.loginId;
      if login == "" || account.value.authUrl == "" { return Failure(NoLogin), start, done, reply; }
      ghost var outer := held;
      var completion, deferred := AwaitLogin(login, polls);
      done := if completion.Success? then Some(completion.value) else None;
      NothingMore(consumed);
      if completion.Failure? {
        account := completion;
      } else if !completion.value.success {
        account := Failure(Refused(completion.value));
      } else {
        account, reply := Account(nested);
      }
      Release(deferred, outer);
    }

    /** The nested `account_read`. */
    method Account(attempt: Attempt) returns (account: Result<Message, Failure>, ghost reply: Option<Message>)
      requires Valid()
      modifies this
      ensures Valid() && held == old(held) && nextId == old(nextId) + 1 && old(delivered) <= delivered
      ensures consumed == old(consumed) + One(reply) && answers == WithAnswer(old(answers), old(nextId), reply)
      ensures reply.Some? ==> reply.value.id == Some(old(nextId))
      ensures account.Success? <==> reply.Some? && !reply.value.isError
      ensures account.Success? ==> account == Success(reply.value)
    {
      hide Searched, Balanced, One;
      account := Request(attempt);
      reply := Answer(account);
      FoundMatches(Stream(), queue, ReplyTo(old(nextId)), reply);
    }

    /** Hold messages back until the completion of this login comes, which is consumed. */
    method AwaitLogin(login: string, polls: seq<Poll>) returns (r: Result<Message, Failure>, deferred: seq<Message>)
      requires Valid()
      modifies this`queue, this`delivered, this`held, this`consumed
      ensures Valid() && old(delivered) <= delivered && held == old(held) + multiset(deferred)
      ensures consumed == old(consumed) + One(if r.Success? then Some(r.value) else None)
      ensures r.Success? ==> r.value.kind == Some("account/login/completed") && r.value.loginId == login
      ensures forall k | 0 <= k < |deferred| ::
                deferred[k].kind != Some("account/login/completed") || deferred[k].loginId != login
      ensures r.Failure? ==> r.error == TimedOut || r.error == ProcessExited
      ensures r.Failure? ==> forall k | 0 <= k < |old(queue)| && Alive(polls, k + 1) ::
                               old(queue)[k].kind != Some("account/login/completed") || old(queue)[k].loginId != login
    {
      hide Balanced, One, Batches, Valid;
      deferred := [];
      var spent := 0;
      NothingMore(consumed);
      while true
        invariant 0 <= spent <= |polls| && Alive(polls, spent)
        invariant old(delivered) <= delivered && Stream() == deferred + queue
        invariant |deferred| < |old(queue)| ==> |deferred| == spent
        invariant Valid() && held == old(held) + multiset(deferred) && old(delivered) <= delivered
        invariant consumed == old(consumed)
        invariant forall k | 0 <= k < |deferred| :: !CompletesLogin(deferred[k], login)
        decreases |polls| - spent
      {
        ghost var waiting, seen := queue, delivered;
        var received, used := ReceiveHeld(polls[spent..]);
        MorePolls(polls, spent, used);
        StreamGrows(old(queue), old(delivered), seen, delivered, deferred, waiting);
        if received.Failure? {
          WaitingWasLookedAt(old(queue), Stream(), deferred, queue, polls, spent, used);
          return received, deferred;
        }
        spent := spent + used;
        var message := received.value;
        if CompletesLogin(message, login) {
          ConsumeHeld(message, old(held) + multiset(deferred));
          return received, deferred;
        }
        HoldOneMore(old(held), deferred, message);
        deferred := deferred + [message];
      }
    }

    /** Wait for a message and hold it back. */
    method ReceiveHeld(polls: seq<Poll>) returns (r: Result<Message, Failure>, used: nat)
      requires Valid()
      modifies this`queue, this`delivered, this`held
      ensures Valid() && used <= |polls| && Alive(polls, used) && old(delivered) <= delivered
      ensures match r
              case Success(m) =>
                && used > 0 && held == old(held) + multiset{m} && Stream() == [m] + queue
                && (old(queue) != [] ==> used == 1)
              case Failure(e) =>
                && held == old(held) && queue == Stream() && (used > 0 ==> queue == [])
                && e == (if used == |polls| then TimedOut else ProcessExited)
                && (used < |polls| ==> polls[used].Exit?)
    {
      hide Balanced;
      r, used := Receive(polls);
      ReceivingKeepsBalance(old(queue), old(delivered), delivered, held, consumed, queue,
                            if r.Success? then Some(r.value) else None);
      held := held + One(if r.Success? then Some(r.value) else None);
    }

    /** Put held messages back; `kept` is what an outer caller still holds. */
    method Release(deferred: seq<Message>, ghost kept: multiset<Message>)
      requires Valid() && held == kept + multiset(deferred)
      modifies this`queue, this`held
      ensures Valid() && held == kept
    {
      hide Balanced;
      assert held - multiset(deferred) == kept;
      ReleasingKeepsBalance(queue, held, consumed, delivered, deferred);
      PutBack(deferred);
      held := kept;
    }

    /** Keep a held message for good. */
    ghost method ConsumeHeld(m: Message, kept: multiset<Message>)
      requires Valid() && held == kept + multiset{m}
      modifies this`held, this`consumed
      ensures Valid() && held == kept && consumed == old(consumed) + One(Some(m))
    {
      hide Balanced;
      assert held - multiset{m} == kept;
      ConsumingKeepsBalance(queue, held, consumed, delivered, m);
      held, consumed := kept, consumed + multiset{m};
    }
  }

  lemma HoldOneMore(outer: multiset<Message>, deferred: seq<Message>, m: Message)
    ensures outer + multiset(deferred) + multiset{m} == outer + multiset(deferred + [m])
  {
  }

  lemma {:induction false} BatchesOfConcat(a: seq<Poll>, b: seq<Poll>)
    ensures Batches(a + b) == Batches(a) + Batches(b)
  {
    if b == [] {
      assert a + b == a;
    } else {
      assert (a + b)[..|a + b| - 1] == a + b[..|b| - 1];
      BatchesOfConcat(a, b[..|b| - 1]);
    }
  }

  /** When a wait ends with nothing left to poll, every message that waited in reach of the polls was looked at. */
  lemma WaitingWasLookedAt(start: seq<Message>, stream: seq<Message>, looked: seq<Message>, queue: seq<Message>,
                           polls: seq<Poll>, spent: nat, used: nat)
    requires start <= stream == looked + queue && spent + used <= |polls|
    requires |looked| < |start| ==> |looked| == spent
    requires used > 0 ==> queue == []
    requires spent + used < |polls| ==> polls[spent + used].Exit?
    ensures forall k | 0 <= k < |start| && Alive(polls, k + 1) :: k < |looked| && start[k] == looked[k]
  {
    assert |looked| < |start| ==> |queue| > 0;
    assert |looked| < |start| ==> !Alive(polls, |looked| + 1);
    hide Alive;
    forall k | 0 <= k < |start| && Alive(polls, k + 1)
      ensures k < |looked| && start[k] == looked[k]
    {
      AliveEarlier(polls, |looked| + 1, k + 1);
      assert stream[k] == start[k];
    }
  }

  lemma AliveEarlier(polls: seq<Poll>, n: nat, m: nat)
    ensures n <= m && Alive(polls, m) ==> Alive(polls, n)
  {
  }

  lemma AllPassedOver(stream: seq<Message>, deferred: seq<Message>, rest: seq<Message>, wanted: Wanted)
    requires stream == deferred + rest && forall j | 0 <= j < |deferred| :: !Matches(wanted, deferred[j])
    ensures Searched(stream, rest + deferred, wanted, None)
  {
    hide Matches;
    Split(stream, deferred, rest);
    assert PassedOver(stream, rest + deferred, |deferred|) && NoneBefore(stream, |deferred|, wanted);
  }

  lemma TakenAfter(stream: seq<Message>, deferred: seq<Message>, m: Message, rest: seq<Message>, wanted: Wanted)
    requires stream == deferred + ([m] + rest) && forall j | 0 <= j < |deferred| :: !Matches(wanted, deferred[j])
    requires Matches(wanted, m)
    ensures Searched(stream, rest + deferred, wanted, Some(m))
  {
    hide Matches;
    Split(stream, deferred, [m] + rest);
    assert TookAt(stream, rest + deferred, |deferred|) && NoneBefore(stream, |deferred|, wanted);
  }

  lemma OneMorePoll(polls: seq<Poll>, n: nat)
    requires n < |polls| && polls[n].Tick?
    ensures Batches(polls[..n + 1]) == Batches(polls[..n]) + polls[n].batch
  {
    assert polls[..n + 1][..n] == polls[..n];
  }

  lemma NoBatches(polls: seq<Poll>)
    ensures Batches(polls[..0]) == []
  {
  }

  lemma MorePolls(polls: seq<Poll>, spent: nat, used: nat)
    requires spent + used <= |polls| && Alive(polls, spent) && Alive(polls[spent..], used)
    ensures Alive(polls, spent + used)
    ensures Batches(polls[..spent + used]) == Batches(polls[..spent]) + Batches(polls[spent..][..used])
  {
    hide Batches;
    BatchesOfConcat(polls[..spent], polls[spent..][..used]);
    TwoStretches(polls, spent, used);
    assert forall j | spent <= j < spent + used :: polls[j] == polls[spent..][j - spent];
  }

  lemma TwoStretches(polls: seq<Poll>, a: nat, b: nat)
    requires a + b <= |polls|
    ensures polls[..a] + polls[a..][..b] == polls[..a + b]
  {
  }

  lemma Split(stream: seq<Message>, front: seq<Message>, back: seq<Message>)
    requires stream == front + back
    ensures stream[..|front|] == front && stream[|front|..] == back
    ensures back != [] ==> stream[|front|] == back[0] && stream[|front| + 1..] == back[1..]
  {
  }

  /** Messages delivered later extend the stream at its end. */
  lemma StreamGrows(start: seq<Message>, a: seq<Message>, b: seq<Message>, c: seq<Message>, deferred: seq<Message>,
                    waiting: seq<Message>)
    requires a <= b <= c && start + b[|a|..] == deferred + waiting
    ensures a <= c && start + c[|a|..] == deferred + (waiting + c[|b|..])
  {
    assert c[|a|..] == b[|a|..] + c[|b|..];
    assert start + (b[|a|..] + c[|b|..]) == (start + b[|a|..]) + c[|b|..];
  }
}
