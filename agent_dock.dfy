/**
  The agent chat dock: a message log that only grows, fed by the user's
  submissions, by a prompt bubble whenever the prompt text changes, and (in
  reply mode) by a canned agent answer after a delay. The list shows the
  last six messages.
*/
module AgentDock {
  import opened Wrappers
  import JsString

  datatype Role = User | Agent

  /** A chat bubble; the time-based id and timestamp are not modelled. */
  datatype Msg = Msg(role: Role, text: string)

  /** The canned agent answers. */
  const DUMMY: seq<string> := [
    "네, 도와드릴게요. 무엇을 원하시나요?",
    "일정 제목/기간/장소를 말해주시면 준비해볼게요.",
    "카테고리나 투두 여부도 함께 지정할 수 있어요.",
    "겹치면 알려드릴게요. 계속 입력해보세요!"
  ]

  /** How many messages the list shows. */
  const VISIBLE_COUNT: nat := 6

  /** `Math.floor(random * n)` for a `random` drawn from [0, 1): always an index below `n`. */
  function PickIndex(n: nat, random: real): (i: nat)
    requires n > 0 && 0.0 <= random < 1.0
    ensures i < n
    ensures i as real <= random * n as real < i as real + 1.0
  {
    ProductBelow(random, n as real);
    FloorBelow(random * n as real, n)
  }

  /** The floor of a real in [0, n) is an index below n. */
  function FloorBelow(x: real, n: nat): (i: nat)
    requires 0.0 <= x < n as real
    ensures i < n && i as real <= x < i as real + 1.0
  {
    x.Floor
  }

  lemma ProductBelow(random: real, n: real)
    requires n > 0.0 && 0.0 <= random < 1.0
    ensures 0.0 <= random * n < n
  {
    assert n - random * n == (1.0 - random) * n;
  }

  /** `pick(arr)`, with the value of `Math.random()` passed in as `random`: an element of `arr`. */
  function Pick(arr: seq<string>, random: real): (r: string)
    requires |arr| > 0 && 0.0 <= random < 1.0
    ensures r in arr
  {
    arr[PickIndex(|arr|, random)]
  }

  /** `msgs.slice(-6)`: the last min(6, n) messages, in their original order. */
  function Visible(msgs: seq<Msg>): (v: seq<Msg>)
    ensures |v| == if |msgs| < VISIBLE_COUNT then |msgs| else VISIBLE_COUNT
    ensures forall i :: 0 <= i < |v| ==> v[i] == msgs[|msgs| - |v| + i]
  {
    msgs[if |msgs| < VISIBLE_COUNT then 0 else |msgs| - VISIBLE_COUNT..]
  }

  /**
    Appending a message shows it last; once six are shown, the oldest shown
    one scrolls away.
  */
  lemma {:induction false} VisibleAfterAppend(msgs: seq<Msg>, m: Msg)
    ensures Visible(msgs + [m]) ==
      if |msgs| < VISIBLE_COUNT then msgs + [m] else Visible(msgs)[1..] + [m]
  {
    var v, w := Visible(msgs), Visible(msgs + [m]);
    if |msgs| < VISIBLE_COUNT {
      assert |w| == |msgs| + 1;
      assert forall i :: 0 <= i < |w| ==> w[i] == (msgs + [m])[i];
    } else {
      assert |w| == VISIBLE_COUNT;
      assert forall i :: 0 <= i < |w| ==> w[i] == (v[1..] + [m])[i];
    }
  }

  class Dock {
    var msgs: seq<Msg>
    var typing: bool
    /** The prompt text the last effect run saw. */
    var prompt: string
    /** Reply timers that have been set and have not fired yet. */
    var pendingReplies: nat

    /** Mounting runs the prompt effect once, so the log starts with the prompt bubble. */
    constructor(prompt: string)
      ensures msgs == [Msg(Agent, prompt)] && !typing
      ensures this.prompt == prompt && pendingReplies == 0
    {
      msgs := [Msg(Agent, prompt)];
      typing := false;
      this.prompt := prompt;
      pendingReplies := 0;
    }

    /** A render with prompt `p`: the effect runs, appending one bubble, only when the prompt changed. */
    method SetPrompt(p: string)
      modifies this
      ensures prompt == p
      ensures msgs == if p == old(prompt) then old(msgs) else old(msgs) + [Msg(Agent, p)]
      ensures typing == old(typing) && pendingReplies == old(pendingReplies)
    {
      if p != prompt {
        prompt := p;
        msgs := msgs + [Msg(Agent, p)];
      }
    }

    /**
      `handleSend(raw)`, with the call to `onSubmit` returned as `submitted`.
      Blank input changes nothing and calls nothing. Otherwise one user
      message with the trimmed text is appended, `onSubmit` gets that text
      exactly when `enableCreate` holds, and in reply mode `typing` is set and
      a reply timer is started.
    */
    method HandleSend(raw: string, enableCreate: bool, enableReply: bool) returns (submitted: Option<string>)
      modifies this
      ensures prompt == old(prompt)
      ensures JsString.AllWhiteSpace(raw) ==>
        && msgs == old(msgs) && typing == old(typing)
        && pendingReplies == old(pendingReplies) && submitted == None
      ensures !JsString.AllWhiteSpace(raw) ==>
        var text := JsString.Trim(raw);
        && text != []
        && msgs == old(msgs) + [Msg(User, text)]
        && submitted == (if enableCreate then Some(text) else None)
        && typing == (enableReply || old(typing))
        && pendingReplies == old(pendingReplies) + (if enableReply then 1 else 0)
    {
      JsString.TrimEmptyIffAllWhiteSpace(raw);
      var text := JsString.Trim(raw);
      if text == [] {
        return None;
      }
      msgs := msgs + [Msg(User, text)];
      submitted := None;
      if enableCreate {
        submitted := Some(text);
      }
      if !enableReply {
        return;
      }
      typing := true;
      pendingReplies := pendingReplies + 1;
    }

    /** A reply timer fires, with `random` standing for `Math.random()`. */
    method DeliverReply(random: real)
      requires pendingReplies > 0 && 0.0 <= random < 1.0
      modifies this
      ensures msgs == old(msgs) + [Msg(Agent, Pick(DUMMY, random))]
      ensures msgs[|msgs| - 1].text in DUMMY
      ensures !typing && prompt == old(prompt)
      ensures pendingReplies == old(pendingReplies) - 1
    {
      var a := Msg(Agent, Pick(DUMMY, random));
      msgs := msgs + [a];
      typing := false;
      pendingReplies := pendingReplies - 1;
    }
  }
}
