/** The language of the event kinds one run may publish: an automaton that reads
    them one at a time, and the words it accepts. */
module EventTrace {
  import opened Base
  import opened Store

  /** How far a run's events have got. `k` counts finished step.start/step.end pairs; `cut`
      says that the last event came in an iteration that was under way. */
  datatype Mark =
    | Nothing
    | Between(k: nat)
    | Dangling(k: nat)
    | Stopped(k: nat)
    | Closed(k: nat, cut: bool, how: Kind)
    | Wrong

  function Read(m: Mark, e: Kind): Mark {
    match m
    case Nothing => if e == EvStart then Between(0) else Wrong
    case Between(k) =>
      if e == EvStepStart then Dangling(k)
      else if e == EvKilled then Stopped(k)
      else if e == EvError || e == EvCancelled || (e == EvEnd && k > 0) then Closed(k, false, e)
      else Wrong
    case Dangling(k) =>
      if e == EvStepEnd then Between(k + 1)
      else if e == EvError || e == EvCancelled then Closed(k, true, e)
      else Wrong
    case Stopped(k) => if e == EvError || e == EvCancelled then Closed(k, true, e) else Wrong
    case _ => Wrong
  }

  function ReadAll(word: seq<Kind>): Mark {
    if word == [] then Nothing else Read(ReadAll(word[..|word| - 1]), Last(word))
  }

  /** The kinds of the events that carry a request id, in publication order. */
  function KindsOf(events: seq<Event>, request: Id): seq<Kind> {
    if events == [] then []
    else
      var front := KindsOf(events[..|events| - 1], request);
      if Last(events).request == request then front + [Last(events).kind] else front
  }

  function MarkOf(events: seq<Event>, request: Id): Mark {
    ReadAll(KindsOf(events, request))
  }

  lemma MarkAppend(events: seq<Event>, e: Event, request: Id)
    ensures MarkOf(events + [e], request)
         == if e.request == request then Read(MarkOf(events, request), e.kind) else MarkOf(events, request)
  {
    assert (events + [e])[..|events|] == events;
    var front := KindsOf(events, request);
    assert (front + [e.kind])[..|front|] == front;
  }

  lemma {:induction false} NoEventsNoMark(events: seq<Event>, request: Id)
    requires forall e :: e in events ==> e.request != request
    ensures KindsOf(events, request) == []
  {
    if events != [] {
      NoEventsNoMark(events[..|events| - 1], request);
    }
  }

  // ---------------------------------------------------------------- the words

  function Pairs(k: nat): seq<Kind> {
    if k == 0 then [] else Pairs(k - 1) + [EvStepStart, EvStepEnd]
  }

  /** start, k pairs, possibly a dangling step.start or a killed, possibly a last event. */
  function Word(k: nat, dangling: bool, killed: bool, closing: seq<Kind>): seq<Kind> {
    [EvStart] + Pairs(k) + (if dangling then [EvStepStart] else []) + (if killed then [EvKilled] else []) + closing
  }

  /** killed never goes with a dangling step; end with neither, and only after a pair;
      nothing follows a last event. */
  predicate Allowed(k: nat, dangling: bool, killed: bool, closing: seq<Kind>) {
    && !(dangling && killed)
    && (closing == [] || closing == [EvError] || closing == [EvCancelled]
        || (closing == [EvEnd] && !dangling && !killed && k > 0))
  }

  function WordMark(k: nat, dangling: bool, killed: bool, closing: seq<Kind>): Mark {
    if closing != [] then Closed(k, dangling || killed, closing[0])
    else if dangling then Dangling(k)
    else if killed then Stopped(k)
    else Between(k)
  }

  lemma ReadAppend(word: seq<Kind>, e: Kind)
    ensures ReadAll(word + [e]) == Read(ReadAll(word), e)
  {
    assert (word + [e])[..|word|] == word;
  }

  lemma {:induction false} PairsRead(k: nat)
    ensures ReadAll([EvStart] + Pairs(k)) == Between(k)
  {
    if k == 0 {
      ReadAppend([], EvStart);
      assert [] + [EvStart] == [EvStart] + Pairs(0);
    } else {
      PairsRead(k - 1);
      var front := [EvStart] + Pairs(k - 1);
      PairRead(front, k - 1);
      assert [EvStart] + Pairs(k) == front + [EvStepStart, EvStepEnd];
    }
  }

  lemma PairRead(word: seq<Kind>, k: nat)
    requires ReadAll(word) == Between(k)
    ensures ReadAll(word + [EvStepStart, EvStepEnd]) == Between(k + 1)
  {
    hide ReadAll;
    ReadAppend(word, EvStepStart);
    ReadAppend(word + [EvStepStart], EvStepEnd);
    assert word + [EvStepStart, EvStepEnd] == word + [EvStepStart] + [EvStepEnd];
  }

  /** Every allowed word is accepted, with the mark that describes it. */
  lemma WordsRead(k: nat, dangling: bool, killed: bool, closing: seq<Kind>)
    requires Allowed(k, dangling, killed, closing)
    ensures ReadAll(Word(k, dangling, killed, closing)) == WordMark(k, dangling, killed, closing)
  {
    hide ReadAll, Pairs;
    PairsRead(k);
    var base := [EvStart] + Pairs(k);
    var mid := if dangling then base + [EvStepStart] else if killed then base + [EvKilled] else base;
    if dangling { ReadAppend(base, EvStepStart); }
    if killed { ReadAppend(base, EvKilled); }
    if closing != [] { ReadAppend(mid, closing[0]); }
    assert Word(k, dangling, killed, closing) == mid + closing;
    assert closing == [] ==> mid + closing == mid;
  }

  ghost predicate Spells(word: seq<Kind>, k: nat, dangling: bool, killed: bool, closing: seq<Kind>) {
    Allowed(k, dangling, killed, closing) && word == Word(k, dangling, killed, closing)
  }

  /** The automaton accepts exactly the empty word and the allowed words. */
  lemma AcceptedIffSpelled(word: seq<Kind>)
    ensures ReadAll(word) != Wrong <==> word == [] || exists k, d, kd, c :: Spells(word, k, d, kd, c)
  {
    if word != [] && ReadAll(word) != Wrong {
      AcceptedIsSpelled(word);
    }
    forall k, d, kd, c | Spells(word, k, d, kd, c) ensures ReadAll(word) != Wrong {
      WordsRead(k, d, kd, c);
    }
  }

  lemma {:induction false} AcceptedIsSpelled(word: seq<Kind>)
    requires word != [] && ReadAll(word) != Wrong
    ensures exists k, d, kd, c :: Spells(word, k, d, kd, c)
  {
    hide Word, Pairs, Read;
    var front, e := word[..|word| - 1], Last(word);
    assert word == front + [e];
    if front == [] {
      StartSpells(word);
    } else {
      ReadWrong(e);
      AcceptedIsSpelled(front);
      var k, d, kd, c :| Spells(front, k, d, kd, c);
      WordsRead(k, d, kd, c);
      SpellNext(word, front, e, k, d, kd, c);
    }
  }

  lemma ReadWrong(e: Kind)
    ensures Read(Wrong, e) == Wrong
  {
  }

  lemma StartSpells(word: seq<Kind>)
    requires |word| == 1 && ReadAll(word) != Wrong
    ensures Spells(word, 0, false, false, [])
  {
    assert word[..0] == [] && word == [word[0]];
    assert word == Word(0, false, false, []);
  }

  lemma SpellNext(word: seq<Kind>, front: seq<Kind>, e: Kind, k: nat, d: bool, kd: bool, c: seq<Kind>)
    requires word == front + [e] && Spells(front, k, d, kd, c)
    requires Read(WordMark(k, d, kd, c), e) != Wrong
    ensures exists k, d, kd, c :: Spells(word, k, d, kd, c)
  {
    assert c == [];
    assert front == Word(k, d, kd, []);
    if e == EvStepStart {
      assert word == Word(k, true, false, []);
      assert Spells(word, k, true, false, []);
    } else if e == EvStepEnd {
      assert Pairs(k + 1) == Pairs(k) + [EvStepStart, EvStepEnd];
      assert word == Word(k + 1, false, false, []);
      assert Spells(word, k + 1, false, false, []);
    } else if e == EvKilled {
      assert word == Word(k, false, true, []);
      assert Spells(word, k, false, true, []);
    } else {
      assert word == Word(k, d, kd, [e]);
      assert Spells(word, k, d, kd, [e]);
    }
  }
}
