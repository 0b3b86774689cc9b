/**
 * The Discord notifier (`src/discord_bot.py`): a queue filled by `send_message` and drained,
 * once the client is ready, into the configured channel, never posting the same text twice in
 * a row. The client's events and replies are inputs: whether the login works, whether the
 * channel is found and whether a send goes through.
 */
module DiscordBot {
  import opened Wrappers

  /** No two neighbours are equal. */
  predicate NoRepeats(s: seq<string>) {
    forall i :: 0 < i < |s| ==> s[i - 1] != s[i]
  }

  /** `a` is `b` with some elements left out. */
  predicate IsSubsequence(a: seq<string>, b: seq<string>)
    decreases |b|
  {
    a == [] || (b != [] && ((a[0] == b[0] && IsSubsequence(a[1..], b[1..])) || IsSubsequence(a, b[1..])))
  }

  /**
   * The messages one drain of `msgs` posts, given the last message posted before it: the j-th
   * dequeued message is posted when its channel is found (`found(j)`), it differs from the last
   * posted one, and the send succeeds (`ok(j)`).
   */
  function Deliver(msgs: seq<string>, last: Option<string>, found: nat -> bool, ok: nat -> bool, j: nat): seq<string>
    decreases |msgs|
  {
    if msgs == [] then []
    else if found(j) && Some(msgs[0]) != last && ok(j) then [msgs[0]] + Deliver(msgs[1..], Some(msgs[0]), found, ok, j + 1)
    else Deliver(msgs[1..], last, found, ok, j + 1)
  }

  /** What is posted is taken from the queue, in queue order. */
  lemma {:induction false} DeliverSubsequence(msgs: seq<string>, last: Option<string>, found: nat -> bool, ok: nat -> bool, j: nat)
    ensures IsSubsequence(Deliver(msgs, last, found, ok, j), msgs)
    decreases |msgs|
  {
    if msgs != [] {
      var d := Deliver(msgs, last, found, ok, j);
      if found(j) && Some(msgs[0]) != last && ok(j) {
        DeliverSubsequence(msgs[1..], Some(msgs[0]), found, ok, j + 1);
        assert d[0] == msgs[0] && d[1..] == Deliver(msgs[1..], Some(msgs[0]), found, ok, j + 1);
      } else {
        DeliverSubsequence(msgs[1..], last, found, ok, j + 1);
        var rest := Deliver(msgs[1..], last, found, ok, j + 1);
        assert d == rest;
        SubsequenceDropFirst(rest, msgs);
      }
    }
  }

  lemma SubsequenceDropFirst(a: seq<string>, b: seq<string>)
    requires b != [] && IsSubsequence(a, b[1..])
    ensures IsSubsequence(a, b)
  {
  }

  /** No post repeats its predecessor, nor the last message posted before the drain. */
  lemma {:induction false} DeliverNoRepeats(msgs: seq<string>, last: Option<string>, found: nat -> bool, ok: nat -> bool, j: nat)
    ensures NoRepeats(Deliver(msgs, last, found, ok, j))
    ensures Deliver(msgs, last, found, ok, j) != [] ==> Some(Deliver(msgs, last, found, ok, j)[0]) != last
    decreases |msgs|
  {
    if msgs != [] {
      if found(j) && Some(msgs[0]) != last && ok(j) {
        DeliverNoRepeats(msgs[1..], Some(msgs[0]), found, ok, j + 1);
      } else {
        DeliverNoRepeats(msgs[1..], last, found, ok, j + 1);
      }
    }
  }

  class Bot {
    var enabled: bool
    var token: Option<string>
    var ready: bool
    var queue: seq<string>
    var lastMessage: Option<string>
    /** What the channel has received, in order. */
    var sent: seq<string>

    /** `last_message` is the last text posted, and no text was posted twice in a row. */
    predicate Valid()
      reads this
    {
      NoRepeats(sent) && (if sent == [] then lastMessage == None else lastMessage == Some(sent[|sent| - 1]))
    }

    /** `DiscordBot()`: enabled as configured, nothing queued or posted yet. */
    constructor (discordEnable: bool, envToken: Option<string>)
      ensures Valid()
      ensures enabled == discordEnable && token == envToken && !ready && queue == [] && lastMessage == None && sent == []
    {
      enabled := discordEnable;
      token := envToken;
      ready := false;
      queue := [];
      lastMessage := None;
      sent := [];
    }

    /**
     * `start()` and `_start_bot()`: without a token, or when the login or the start fails
     * (`loginOk` false), notifications are switched off.
     */
    method Start(loginOk: bool)
      modifies this
      ensures enabled == (old(enabled) && token.Some? && token.value != "" && loginOk)
      ensures token == old(token) && ready == old(ready) && queue == old(queue)
      ensures lastMessage == old(lastMessage) && sent == old(sent)
    {
      if !enabled {
        return;
      }
      if token.None? || token.value == "" {
        enabled := false;
        return;
      }
      if !loginOk {
        enabled := false;
      }
    }

    /** The client's `on_ready` event. */
    method OnReady()
      modifies this
      ensures ready
      ensures enabled == old(enabled) && token == old(token) && queue == old(queue)
      ensures lastMessage == old(lastMessage) && sent == old(sent)
    {
      ready := true;
    }

    /** `send_message(message)`: queued only while notifications are on. */
    method SendMessage(message: string)
      modifies this
      ensures queue == if old(enabled) then old(queue) + [message] else old(queue)
      ensures enabled == old(enabled) && token == old(token) && ready == old(ready)
      ensures lastMessage == old(lastMessage) && sent == old(sent)
    {
      if enabled {
        queue := queue + [message];
      }
    }

    /**
     * One pass of `_process_messages`: nothing before the client is ready; then the whole queue
     * is taken in order and each message posted as `Deliver` says.
     */
    method ProcessMessages(found: nat -> bool, ok: nat -> bool)
      requires Valid()
      modifies this
      ensures Valid()
      ensures !old(ready) ==> queue == old(queue) && sent == old(sent)
      ensures old(ready) ==> queue == [] && sent == old(sent) + Deliver(old(queue), old(lastMessage), found, ok, 0)
      ensures enabled == old(enabled) && token == old(token) && ready == old(ready)
    {
      if !ready {
        return;
      }
      var j := 0;
      while queue != []
        invariant Valid()
        invariant sent + Deliver(queue, lastMessage, found, ok, j) == old(sent) + Deliver(old(queue), old(lastMessage), found, ok, 0)
        invariant enabled == old(enabled) && token == old(token) && ready == old(ready)
        decreases |queue|
      {
        var message := queue[0];
        queue := queue[1..];
        if found(j) {
          if Some(message) != lastMessage {
            if ok(j) {
              sent := sent + [message];
              lastMessage := Some(message);
            }
          }
        }
        j := j + 1;
      }
    }
  }
}
