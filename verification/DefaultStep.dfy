/** The default supervisor step, and what it makes of the checkpoint history. */
module DefaultStep {
  import opened Base
  import opened Store
  import opened Machine
  import opened History

  function Message(role: string, content: string): Value {
    Obj(map["role" := Str(role), "content" := Str(content)])
  }

  /** `int(state.get("step", 0))`; None where `int` raises. */
  function StepNumber(s: State): Option<int> {
    if "step" !in s then Some(0)
    else
      match s["step"]
      case Num(n) => Some(n)
      case Bool(b) => Some(if b then 1 else 0)
      case _ => None
  }

  /** `list(state.get("messages") or [])`; None where `list` raises. */
  function MessageList(s: State): Option<seq<Value>> {
    var v := Get(s, "messages");
    if !Truthy(v) then Some([])
    else
      match v
      case List(items) => Some(items)
      case Str(text) => Some(seq(|text|, i requires 0 <= i < |text| => Str([text[i]])))
      case _ => None
  }

  /** What one exchange adds to the messages: the user's text unless it is empty, and the reply. */
  function Exchange(input: string): seq<Value> {
    (if input != "" then [Message("user", input)] else []) + [Message("supervisor", "ack:" + input)]
  }

  /** `state.get("input", "")` where it is text. */
  function Input(s: State): Option<string> {
    if "input" !in s then Some("")
    else
      match s["input"]
      case Str(text) => Some(text)
      case _ => None
  }

  /** The specification of the default step on states whose `input` is text. */
  function Step(s: State): Option<State> {
    if StepNumber(s).None? || MessageList(s).None? || Input(s).None? then None
    else
      Some(s["step" := Num(StepNumber(s).value + 1)]
            ["messages" := List(MessageList(s).value + Exchange(Input(s).value))]
            ["completed" := Bool(true)])
  }

  /** What the messages of a state hold for the step: the list, the characters of a text, nothing for a false value. */
  predicate Holds(s: State, held: seq<Value>) {
    if "messages" !in s || s["messages"] in {Null, Bool(false), Num(0), Str(""), List([]), Obj(map[])} then held == []
    else if s["messages"].List? then s["messages"] == List(held)
    else s["messages"].Str? && |held| == |s["messages"].s| && forall i :: 0 <= i < |held| ==> held[i] == Str([s["messages"].s[i]])
  }

  /** Starting at entry `at`, the messages hold one exchange: the user's text where it is not empty, then the reply. */
  predicate Said(msgs: seq<Value>, at: nat, input: string) {
    var reply := at + if input == "" then 0 else 1;
    && reply < |msgs|
    && (input != "" ==> msgs[at] == Obj(map["role" := Str("user"), "content" := Str(input)]))
    && msgs[reply] == Obj(map["role" := Str("supervisor"), "content" := Str("ack:" + input)])
  }

  /** What the step returns, key by key. */
  ghost predicate Stepped(s: State, r: State, held: seq<Value>, input: string) {
    && Holds(s, held)
    && (if "input" in s then s["input"] == Str(input) else input == "")
    && r.Keys == s.Keys + {"step", "messages", "completed"}
    && (forall key :: key in s && key != "step" && key != "messages" && key != "completed" ==> r[key] == s[key])
    && r["completed"] == Bool(true)
    && (r["step"] == if "step" !in s || s["step"] == Bool(false) then Num(1)
                     else if s["step"] == Bool(true) then Num(2) else Num((if s["step"].Num? then s["step"].n else 0) + 1))
    && r["messages"].List? && held <= r["messages"].items && Said(r["messages"].items, |held|, input)
    && |r["messages"].items| == |held| + (if input == "" then 1 else 2)
  }

  /** The step counts on, marks the state complete, appends the user's text unless it is empty and then
      the reply, and keeps everything else; it raises exactly if the number or the messages cannot be
      read, or the input is not text. */
  lemma StepSays(s: State)
    ensures match Step(s)
      case None =>
        || ("step" in s && !s["step"].Num? && !s["step"].Bool?)
        || ("input" in s && !s["input"].Str?)
        || ("messages" in s && !s["messages"].List? && !s["messages"].Str? && Truthy(s["messages"]))
      case Some(r) => exists held, input :: Stepped(s, r, held, input)
  {
    if Step(s).Some? {
      var r, held, input := Step(s).value, MessageList(s).value, Input(s).value;
      MessagesHeld(s, held);
      ExchangeSaid(held, input);
      assert Stepped(s, r, held, input);
    }
  }

  lemma MessagesHeld(s: State, held: seq<Value>)
    requires MessageList(s) == Some(held)
    ensures Holds(s, held)
  {
  }

  lemma ExchangeSaid(held: seq<Value>, input: string)
    ensures
      var msgs := held + Exchange(input);
      held <= msgs && Said(msgs, |held|, input) && |msgs| == |held| + if input == "" then 1 else 2
  {
  }

  /** The step as it is written: copy the dictionary, then edit the copy. */
  method SupervisorStep(state: State) returns (result: Option<State>)
    ensures result == Step(state)
    ensures result.Some? ==> exists held, input :: Stepped(state, result.value, held, input)
  {
    StepSays(state);
    var next := state;
    var number := StepNumber(state);
    if number.None? {
      return None;
    }
    next := next["step" := Num(number.value + 1)];
    var listed := MessageList(state);
    var input := Input(state);
    if listed.None? || input.None? {
      return None;
    }
    var msgs := listed.value;
    if Truthy(Get(state, "input")) {
      msgs := msgs + [Message("user", input.value)];
    }
    msgs := msgs + [Message("supervisor", "ack:" + input.value)];
    assert msgs == listed.value + Exchange(input.value);
    next := next["messages" := List(msgs)];
    next := next["completed" := Bool(true)];
    return Some(next);
  }

  // ---------------------------------------------------------------- transcripts

  function Transcript(inputs: seq<string>): seq<Value> {
    if inputs == [] then [] else Transcript(inputs[..|inputs| - 1]) + Exchange(Last(inputs))
  }

  /** The input each step of a path saw: the one it resumed with, or the one of the step before. */
  function InputsOf(links: seq<Link>): seq<string> {
    if links == [] then []
    else
      var front := InputsOf(links[..|links| - 1]);
      front + [match Last(links).resumed
               case Some(x) => x
               case None => if front == [] then "" else Last(front)]
  }

  ghost predicate UsesDefault(cfg: Config) {
    forall s, o :: cfg.step(s, o) == Step(s)
  }

  /** The JSON round trip keeps the number and the messages of a state. */
  ghost predicate KeepsTranscript(cfg: Config) {
    forall s :: Get(cfg.reload(s), "step") == Get(s, "step") && Get(cfg.reload(s), "messages") == Get(s, "messages")
  }

  lemma {:induction false} TranscriptLength(inputs: seq<string>)
    ensures |inputs| <= |Transcript(inputs)| <= 2 * |inputs|
    ensures |Transcript(inputs)| == 2 * |inputs| <==> forall x :: x in inputs ==> x != ""
  {
    if inputs != [] {
      var front := inputs[..|inputs| - 1];
      TranscriptLength(front);
      assert inputs == front + [Last(inputs)];
      assert Last(inputs) in inputs;
      assert forall x :: x in front ==> x in inputs;
    }
  }

  lemma {:induction false} InputsLength(links: seq<Link>)
    ensures |InputsOf(links)| == |links|
  {
    if links != [] {
      InputsLength(links[..|links| - 1]);
    }
  }

  /** The state at the end of a path numbers the steps of the path and holds its whole conversation. */
  predicate Conversed(st: State, inputs: seq<string>) {
    && inputs != []
    && Get(st, "step") == Num(|inputs|)
    && Get(st, "messages") == List(Transcript(inputs))
    && Get(st, "input") == Str(Last(inputs))
    && IsComplete(st)
  }

  lemma StepFields(arg: State, number: int, msgs: seq<Value>, input: string)
    requires StepNumber(arg) == Some(number) && MessageList(arg) == Some(msgs) && Input(arg) == Some(input)
    requires "input" in arg
    ensures Step(arg).Some?
    ensures
      var st := Step(arg).value;
      && Get(st, "step") == Num(number + 1) && Get(st, "messages") == List(msgs + Exchange(input))
      && Get(st, "input") == arg["input"] && IsComplete(st)
  {
  }

  lemma StepConverses(arg: State, inputs: seq<string>, input: string)
    requires Get(arg, "step") == Num(|inputs|) && Get(arg, "messages") == List(Transcript(inputs))
    requires "input" in arg && arg["input"] == Str(input)
    ensures Step(arg).Some? && Conversed(Step(arg).value, inputs + [input])
  {
    hide Step, Exchange, IsComplete;
    assert (inputs + [input])[..|inputs|] == inputs;
    assert MessageList(arg) == Some(Transcript(inputs));
    StepFields(arg, |inputs|, Transcript(inputs), input);
  }

  lemma {:induction false} FoldConverses(cfg: Config, t: Id, links: seq<Link>)
    requires UsesDefault(cfg) && KeepsTranscript(cfg)
    requires Fold(cfg, t, links).Some?
    ensures Conversed(Fold(cfg, t, links).value, InputsOf(links))
  {
    var front := links[..|links| - 1];
    var link := Last(links);
    var inputs := InputsOf(front);
    if |links| == 1 {
      var arg := Override(FRESH, link.resumed.value, t);
      assert front == [];
      assert Get(arg, "messages") == List(Transcript([]));
      StepConverses(arg, [], link.resumed.value);
      assert cfg.step(arg, link.oracle) == Step(arg);
      assert InputsOf(links) == [] + [link.resumed.value];
    } else {
      FoldConverses(cfg, t, front);
      var prev := Fold(cfg, t, front).value;
      var arg := if link.resumed.Some? then Override(cfg.reload(prev), link.resumed.value, t) else prev;
      StepConverses(arg, inputs, Last(InputsOf(links)));
      assert cfg.step(arg, link.oracle) == Step(arg);
    }
  }

  // ---------------------------------------------------------------- main result

  /** The conversation of a checkpoint: each input along its path is that of the audit row of the
      run that made the row there. */
  ghost predicate TranscriptAt(s: Store, j: nat, path: seq<nat>, inputs: seq<string>)
    requires j < |s.checkpoints|
  {
    && IsPath(s.checkpoints, path, j)
    && |inputs| == |path|
    && (forall k :: 0 <= k < |path| ==> InputAudited(s, s.checkpoints[path[k]], inputs[k]))
    && Conversed(s.checkpoints[j].state, inputs)
  }

  ghost predicate InputAudited(s: Store, row: Checkpoint, input: string) {
    AuditRow(row.origin.request, row.thread, input) in s.audit
  }

  lemma {:induction false} InputAt(links: seq<Link>, k: nat)
    requires k < |links| == |InputsOf(links)|
    ensures InputsOf(links)[k] == match links[k].resumed
                                  case Some(x) => x
                                  case None => if k == 0 then "" else InputsOf(links)[k - 1]
  {
    var front := links[..|links| - 1];
    InputsLength(front);
    if k < |front| {
      InputAt(front, k);
    }
  }

  lemma {:induction false} InputsAudited(cfg: Config, s: Store, j: nat, path: seq<nat>, links: seq<Link>, k: nat)
    requires Explains(cfg, s, j, path, links) && k < |path| && |InputsOf(links)| == |links|
    ensures InputAudited(s, s.checkpoints[path[k]], InputsOf(links)[k])
  {
    InputAt(links, k);
    assert LinkMatches(cfg, s, Before(s.checkpoints, path, k), s.checkpoints[path[k]], links[k]);
    if links[k].resumed.None? {
      InputsAudited(cfg, s, j, path, links, k - 1);
    }
  }

  /** The entries that the exchanges of these inputs take. */
  function Entries(inputs: seq<string>): nat {
    if inputs == [] then 0 else Entries(inputs[..|inputs| - 1]) + if Last(inputs) == "" then 1 else 2
  }

  /** The messages are just the exchanges of these inputs, one after the other. */
  ghost predicate Conversation(msgs: seq<Value>, inputs: seq<string>) {
    |msgs| == Entries(inputs) && forall k :: 0 <= k < |inputs| ==> Said(msgs, Entries(inputs[..k]), inputs[k])
  }

  lemma {:induction false} TranscriptIsConversation(inputs: seq<string>)
    ensures Conversation(Transcript(inputs), inputs)
  {
    if inputs != [] {
      hide Said, Exchange;
      var front, held := inputs[..|inputs| - 1], Transcript(inputs[..|inputs| - 1]);
      TranscriptIsConversation(front);
      ExchangeSaid(held, Last(inputs));
      forall k | 0 <= k < |inputs| ensures Said(Transcript(inputs), Entries(inputs[..k]), inputs[k]) {
        if k < |front| {
          assert inputs[..k] == front[..k];
          SaidStays(held, Exchange(Last(inputs)), Entries(front[..k]), front[k]);
        }
      }
    }
  }

  lemma SaidStays(msgs: seq<Value>, more: seq<Value>, at: nat, input: string)
    requires Said(msgs, at, input)
    ensures Said(msgs + more, at, input)
  {
  }

  /** With the default step, in every reachable world, a checkpoint at depth d of its parent
      path has step number d, and its messages are the exchanges of the d inputs along that
      path, each the audited input of the run that made the row there: the user's text, unless it
      is empty, and the supervisor's reply to it; 2d messages if and only if none of these inputs is empty. */
  lemma DefaultTranscript(cfg: Config, acts: seq<Action>, j: nat)
    requires UsesDefault(cfg) && KeepsTranscript(cfg)
    requires j < |Exec(cfg, START, acts).store.checkpoints|
    ensures
      var s := Exec(cfg, START, acts).store;
      exists path, inputs :: TranscriptAt(s, j, path, inputs)
        && "messages" in s.checkpoints[j].state && s.checkpoints[j].state["messages"].List?
        && Conversation(s.checkpoints[j].state["messages"].items, inputs)
        && (Entries(inputs) == 2 * |path| <==> forall x :: x in inputs ==> x != "")
  {
    hide Said, LinkMatches, Fold, Exec, InputsOf, Transcript, Entries, InputAudited, IsComplete;
    Provenance(cfg, acts, j);
    var s := Exec(cfg, START, acts).store;
    var path, links :| Explains(cfg, s, j, path, links);
    FoldConverses(cfg, s.checkpoints[j].thread, links);
    InputsLength(links);
    var inputs := InputsOf(links);
    forall k | 0 <= k < |path| ensures InputAudited(s, s.checkpoints[path[k]], inputs[k]) {
      InputsAudited(cfg, s, j, path, links, k);
    }
    assert TranscriptAt(s, j, path, inputs);
    TranscriptLength(inputs);
    TranscriptIsConversation(inputs);
  }
}
